/** Money: splits that sum to their entry, and the even split (internal/domain/budget.go). Amounts are mathematical
    integers; the source's int64 sums carry no overflow check. */
module Ledger {
  import opened Domain

  function SplitTotal(splits: seq<Split>): int {
    if splits == [] then 0 else splits[0].amount + SplitTotal(splits[1..])
  }

  predicate DistinctUsers(splits: seq<Split>) {
    forall i, j :: 0 <= i < j < |splits| ==> splits[i].user != splits[j].user
  }

  predicate NoneNegative(splits: seq<Split>) {
    forall i :: 0 <= i < |splits| ==> splits[i].amount >= 0
  }

  predicate AllNamed(splits: seq<Split>) {
    forall i :: 0 <= i < |splits| ==> splits[i].user != NIL_ID
  }

  /** The demands Validate makes of an entry's amount and splits. */
  predicate SplitsValid(amount: int, splits: seq<Split>) {
    && amount >= 0
    && NoneNegative(splits) && AllNamed(splits) && DistinctUsers(splits)
    && (splits != [] ==> SplitTotal(splits) == amount)
  }

  datatype Issue = NegativeAmount | NegativeSplit | MissingUser | DuplicateMember | SumMismatch

  lemma {:induction false} TotalSnoc(splits: seq<Split>, s: Split)
    ensures SplitTotal(splits + [s]) == SplitTotal(splits) + s.amount
  {
    if splits == [] {
      assert splits + [s] == [s];
    } else {
      assert (splits + [s])[1..] == splits[1..] + [s];
      TotalSnoc(splits[1..], s);
    }
  }

  method ComputeSplitTotal(splits: seq<Split>) returns (total: int)
    ensures total == SplitTotal(splits)
  {
    total := 0;
    for i := 0 to |splits|
      invariant total == SplitTotal(splits[..i])
    {
      assert splits[..i + 1] == splits[..i] + [splits[i]];
      TotalSnoc(splits[..i], splits[i]);
      total := total + splits[i].amount;
    }
    assert splits[..|splits|] == splits;
  }

  /** Validate's part about money: every issue is reported exactly when it is there, and none means valid splits. */
  method Validate(amount: int, splits: seq<Split>) returns (issues: set<Issue>)
    ensures NegativeAmount in issues <==> amount < 0
    ensures NegativeSplit in issues <==> !NoneNegative(splits)
    ensures MissingUser in issues <==> !AllNamed(splits)
    ensures DuplicateMember in issues <==> !DistinctUsers(splits)
    ensures SumMismatch in issues <==> splits != [] && SplitTotal(splits) != amount
    ensures issues == {} <==> SplitsValid(amount, splits)
  {
    issues := if amount < 0 then {NegativeAmount} else {};
    var seen: set<ID> := {};
    for i := 0 to |splits|
      invariant seen == set j | 0 <= j < i :: splits[j].user
      invariant NegativeAmount in issues <==> amount < 0
      invariant NegativeSplit in issues <==> !NoneNegative(splits[..i])
      invariant MissingUser in issues <==> !AllNamed(splits[..i])
      invariant DuplicateMember in issues <==> !DistinctUsers(splits[..i])
      invariant SumMismatch !in issues
    {
      var s := splits[i];
      ghost var before := splits[..i];
      assert splits[..i + 1] == before + [s];
      PrefixFlags(before, s);
      if s.amount < 0 {
        issues := issues + {NegativeSplit};
      }
      if s.user == NIL_ID {
        issues := issues + {MissingUser};
      }
      if s.user in seen {
        issues := issues + {DuplicateMember};
      }
      seen := seen + {s.user};
    }
    assert splits[..|splits|] == splits;
    var total := ComputeSplitTotal(splits);
    if splits != [] && total != amount {
      issues := issues + {SumMismatch};
    }
    assert issues == {} <==> SplitsValid(amount, splits) by {
      if SplitsValid(amount, splits) {
        forall x: Issue ensures x !in issues {
          match x case NegativeAmount => case NegativeSplit => case MissingUser => case DuplicateMember => case SumMismatch =>
        }
      }
    }
  }

  lemma PrefixFlags(splits: seq<Split>, s: Split)
    ensures NoneNegative(splits + [s]) <==> NoneNegative(splits) && s.amount >= 0
    ensures AllNamed(splits + [s]) <==> AllNamed(splits) && s.user != NIL_ID
    ensures DistinctUsers(splits + [s]) <==> DistinctUsers(splits) && forall j :: 0 <= j < |splits| ==> splits[j].user != s.user
  {
    var all := splits + [s];
    assert all[|splits|] == s;
    assert forall j :: 0 <= j < |splits| ==> all[j] == splits[j];
  }

  // ----- sorting does not touch the money -----

  lemma {:induction false} InsertTotal(s: Split, sorted: seq<Split>)
    ensures SplitTotal(InsertSplit(s, sorted)) == s.amount + SplitTotal(sorted)
  {
    if sorted == [] || s.user <= sorted[0].user {
      assert ([s] + sorted)[1..] == sorted;
    } else {
      InsertTotal(s, sorted[1..]);
      assert ([sorted[0]] + InsertSplit(s, sorted[1..]))[1..] == InsertSplit(s, sorted[1..]);
    }
  }

  lemma {:induction false} SortedTotal(splits: seq<Split>)
    ensures SplitTotal(SortedSplits(splits)) == SplitTotal(splits)
  {
    if splits != [] {
      SortedTotal(splits[1..]);
      InsertTotal(splits[0], SortedSplits(splits[1..]));
    }
  }

  lemma {:induction false} DistinctByCount(splits: seq<Split>, other: seq<Split>)
    requires multiset(splits) == multiset(other) && DistinctUsers(splits)
    ensures DistinctUsers(other)
  {
    forall i, j | 0 <= i < j < |other| ensures other[i].user != other[j].user {
      if other[i].user == other[j].user {
        assert other[i] in multiset(splits) && other[j] in multiset(splits);
        var x :| 0 <= x < |splits| && splits[x] == other[i];
        var y :| 0 <= y < |splits| && splits[y] == other[j];
        assert x == y;
        OccursTwice(other, i, j);
        OccursOnce(splits, x);
      }
    }
  }

  lemma OccursTwice(s: seq<Split>, i: int, j: int)
    requires 0 <= i < j < |s| && s[i] == s[j]
    ensures multiset(s)[s[i]] >= 2
  {
    assert s == s[..j] + s[j..];
    assert s[i] in s[..j] && s[j] in s[j..];
  }

  lemma OccursOnce(s: seq<Split>, x: int)
    requires 0 <= x < |s| && DistinctUsers(s)
    ensures multiset(s)[s[x]] == 1
  {
    assert s == s[..x] + [s[x]] + s[x + 1..];
    assert s[x] !in s[..x] && s[x] !in s[x + 1..];
  }

  lemma SortingKeepsValid(amount: int, splits: seq<Split>)
    requires SplitsValid(amount, splits)
    ensures SplitsValid(amount, SortedSplits(splits))
  {
    var sorted := SortedSplits(splits);
    SortedIsPermutation(splits);
    SortedTotal(splits);
    DistinctByCount(splits, sorted);
    forall i | 0 <= i < |sorted| ensures sorted[i].amount >= 0 && sorted[i].user != NIL_ID {
      assert sorted[i] in multiset(splits);
    }
  }

  // ----- SplitEvenly -----

  function EvenShare(amount: nat, n: nat, i: nat): nat
    requires n > 0
  {
    amount / n + if i < amount % n then 1 else 0
  }

  function EvenSplit(amount: int, members: seq<ID>): (splits: seq<Split>)
    ensures amount >= 0 && members != [] ==> |splits| == |members|
    ensures splits == [] <==> members == [] || amount < 0
  {
    if members == [] || amount < 0 then []
    else seq(|members|, i requires 0 <= i < |members| => Split(members[i], EvenShare(amount, |members|, i)))
  }

  method SplitEvenly(amount: int, members: seq<ID>) returns (splits: seq<Split>)
    ensures splits == EvenSplit(amount, members)
  {
    if members == [] || amount < 0 {
      return [];
    }
    var n := |members|;
    var base, remainder := amount / n, amount % n;
    splits := [];
    for i := 0 to n
      invariant |splits| == i
      invariant forall j :: 0 <= j < i ==> splits[j] == Split(members[j], EvenShare(amount, n, j))
    {
      var share := base;
      if i < remainder {
        share := share + 1;
      }
      splits := splits + [Split(members[i], share)];
    }
  }

  predicate Distinct(members: seq<ID>) {
    forall i, j :: 0 <= i < j < |members| ==> members[i] != members[j]
  }

  lemma {:induction false} EvenPrefixTotal(amount: nat, members: seq<ID>, k: nat)
    requires members != [] && k <= |members|
    ensures var n := |members|;
      SplitTotal(EvenSplit(amount, members)[..k]) ==
      k * (amount / n) + if k < amount % n then k else amount % n
  {
    var n, splits := |members|, EvenSplit(amount, members);
    if k > 0 {
      EvenPrefixTotal(amount, members, k - 1);
      assert splits[..k] == splits[..k - 1] + [splits[k - 1]];
      TotalSnoc(splits[..k - 1], splits[k - 1]);
      assert k * (amount / n) == (k - 1) * (amount / n) + amount / n;
    }
  }

  lemma SharesClose(amount: nat, n: nat, i: nat, j: nat)
    requires i <= j < n
    ensures EvenShare(amount, n, j) <= EvenShare(amount, n, i) <= EvenShare(amount, n, j) + 1
  {
  }

  lemma SharesAdd(amount: nat, members: seq<ID>)
    requires members != []
    ensures SplitTotal(EvenSplit(amount, members)) == amount
  {
    var n, splits := |members|, EvenSplit(amount, members);
    EvenPrefixTotal(amount, members, n);
    assert splits[..n] == splits;
  }

  lemma SameMembers(splits: seq<Split>, members: seq<ID>)
    requires |splits| == |members| && forall i :: 0 <= i < |members| ==> splits[i].user == members[i]
    ensures DistinctUsers(splits) <==> Distinct(members)
    ensures AllNamed(splits) <==> NIL_ID !in members
  {
  }

  /** The shares of an even split go to the members in order, sum exactly to the amount, never increase along the list and
      differ by at most one; and they pass Validate exactly when the members are named and distinct. */
  lemma EvenSplitIsFair(amount: nat, members: seq<ID>)
    requires members != []
    ensures var splits := EvenSplit(amount, members);
      && (forall i :: 0 <= i < |members| ==> splits[i].user == members[i])
      && SplitTotal(splits) == amount
      && (forall i, j :: 0 <= i <= j < |members| ==> splits[j].amount <= splits[i].amount <= splits[j].amount + 1)
      && (SplitsValid(amount, splits) <==> Distinct(members) && NIL_ID !in members)
  {
    var n, splits := |members|, EvenSplit(amount, members);
    SharesAdd(amount, members);
    SameMembers(splits, members);
    forall i, j | 0 <= i <= j < n ensures splits[j].amount <= splits[i].amount <= splits[j].amount + 1 {
      SharesClose(amount, n, i, j);
    }
  }
}
