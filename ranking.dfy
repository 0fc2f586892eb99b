/** Ordering by a numeric key, highest first, as `sort((a, b) => key(b) -
    key(a))` does on a copy, and keeping the first k entries, as `slice(0, k)`
    does (components/ConversationHistory.tsx:60, components/ProfileView.tsx:47-53).
    The sort is stable, like the sort of the language: equal keys keep their
    input order. */
module Ranking {

  /** Highest key first. */
  ghost predicate Descending<T>(s: seq<T>, key: T -> int)
  {
    forall i, j :: 0 <= i < j < |s| ==> key(s[i]) >= key(s[j])
  }

  /** Put `x` into a list ordered highest first, after every entry whose key
      is at least its own. */
  function Insert<T>(x: T, s: seq<T>, key: T -> int): (r: seq<T>)
    ensures |r| == |s| + 1
    ensures multiset(r) == multiset(s) + multiset{x}
  {
    if s == [] || key(x) > key(s[0]) then [x] + s
    else
      assert s == [s[0]] + s[1..];
      [s[0]] + Insert(x, s[1..], key)
  }

  /** Inserting keeps a list ordered. */
  lemma {:induction false} InsertDescending<T>(x: T, s: seq<T>, key: T -> int)
    requires Descending(s, key)
    ensures Descending(Insert(x, s, key), key)
    decreases |s|
  {
    if s != [] && key(x) <= key(s[0]) {
      var tail := s[1..];
      InsertDescending(x, tail, key);
      var rest := Insert(x, tail, key);
      var r := [s[0]] + rest;
      assert Insert(x, s, key) == r;
      forall j | 0 < j < |r|
        ensures key(s[0]) >= key(r[j])
      {
        assert multiset(rest) == multiset(tail) + multiset{x};
        assert r[j] in multiset(rest);
        if r[j] != x {
          assert r[j] in multiset(tail);
          var m :| 0 <= m < |tail| && tail[m] == r[j];
          assert s[m + 1] == r[j];
        }
      }
    }
  }

  /** The entries ordered highest first: each one is put in after the ones
      before it. */
  function Sort<T>(s: seq<T>, key: T -> int): (r: seq<T>)
    ensures |r| == |s|
    ensures multiset(r) == multiset(s)
    ensures Descending(r, key)
    decreases |s|
  {
    if s == [] then []
    else
      assert s == s[..|s| - 1] + [s[|s| - 1]];
      var init := Sort(s[..|s| - 1], key);
      InsertDescending(s[|s| - 1], init, key);
      Insert(s[|s| - 1], init, key)
  }

  /** The first `k` entries of the ordered copy: min(k, |s|) of them, all
      from the input, highest first. */
  function Top<T>(s: seq<T>, k: nat, key: T -> int): (r: seq<T>)
    ensures |r| == (if k < |s| then k else |s|)
    ensures multiset(r) <= multiset(s)
    ensures Descending(r, key)
  {
    var sorted := Sort(s, key);
    var n := if k < |sorted| then k else |sorted|;
    assert sorted == sorted[..n] + sorted[n..];
    sorted[..n]
  }

  /** In an ordered list no entry outside a prefix has a larger key than an
      entry of the prefix. */
  lemma {:induction false} PrefixDominates<T>(sorted: seq<T>, n: nat, key: T -> int)
    requires Descending(sorted, key) && n <= |sorted|
    ensures forall x :: x in multiset(sorted) - multiset(sorted[..n]) ==>
      forall i :: 0 <= i < n ==> key(x) <= key(sorted[..n][i])
  {
    var r := sorted[..n];
    var rest := sorted[n..];
    assert sorted == r + rest;
    assert multiset(sorted) == multiset(r) + multiset(rest);
    forall x | x in multiset(sorted) - multiset(r)
      ensures forall i :: 0 <= i < n ==> key(x) <= key(r[i])
    {
      assert multiset(sorted)[x] == multiset(r)[x] + multiset(rest)[x];
      assert x in rest;
      var j :| 0 <= j < |rest| && rest[j] == x;
      assert sorted[n + j] == x;
    }
  }

  /** No entry left out of the top has a larger key than any entry shown. */
  lemma {:induction false} TopDominates<T>(s: seq<T>, k: nat, key: T -> int)
    ensures var r := Top(s, k, key);
      forall x :: x in multiset(s) - multiset(r) ==> forall i :: 0 <= i < |r| ==> key(x) <= key(r[i])
  {
    var sorted := Sort(s, key);
    var n := if k < |sorted| then k else |sorted|;
    assert Top(s, k, key) == sorted[..n];
    PrefixDominates(sorted, n, key);
  }

  /** Sorting a list that is already ordered highest first changes nothing. */
  lemma {:induction false} SortKeepsOrdered<T>(s: seq<T>, key: T -> int)
    requires forall i, j :: 0 <= i < j < |s| ==> key(s[i]) >= key(s[j])
    ensures Sort(s, key) == s
    decreases |s|
  {
    if s != [] {
      var init := s[..|s| - 1];
      var last := s[|s| - 1];
      forall i, j | 0 <= i < j < |init|
        ensures key(init[i]) >= key(init[j])
      {
        assert init[i] == s[i] && init[j] == s[j];
      }
      SortKeepsOrdered(init, key);
      forall i | 0 <= i < |init|
        ensures key(init[i]) >= key(last)
      {
        assert init[i] == s[i];
      }
      InsertAtEnd(last, init, key);
      assert init + [last] == s;
    }
  }

  /** Helper for SortKeepsOrdered: an entry no larger than all others goes
      last. */
  lemma {:induction false} InsertAtEnd<T>(x: T, s: seq<T>, key: T -> int)
    requires forall i :: 0 <= i < |s| ==> key(s[i]) >= key(x)
    ensures Insert(x, s, key) == s + [x]
    decreases |s|
  {
    if s != [] {
      InsertAtEnd(x, s[1..], key);
      assert [s[0]] + (s[1..] + [x]) == s + [x];
    }
  }
}
