/** What a user's accepted tokens come to when several regenerations of theirs cross.

    Each takes the user from the token it finds in the map to its own, and later swaps the two in the token map. The
    order of the renamings and the order of the swaps need not be the same. */
module SwapOrder {
  predicate Distinct(s: seq<string>) {
    forall i, j | 0 <= i < j < |s| :: s[i] != s[j]
  }

  function LastOr(first: string, s: seq<string>): string {
    if s == [] then first else s[|s| - 1]
  }

  /** The token that `token` replaced, when the user was renamed from `first` in the order of `renames`. */
  function Replaced(first: string, renames: seq<string>, token: string): string {
    if renames == [] then first
    else
      var before := renames[..|renames| - 1];
      if renames[|renames| - 1] == token then LastOr(first, before) else Replaced(first, before, token)
  }

  /** The tokens accepted after the swaps: each takes out the token it replaced and puts in its own. */
  function AcceptedAfter(first: string, renames: seq<string>, swaps: seq<string>): set<string> {
    if swaps == [] then {first}
    else
      var token := swaps[|swaps| - 1];
      AcceptedAfter(first, renames, swaps[..|swaps| - 1]) - {Replaced(first, renames, token)} + {token}
  }

  lemma {:induction false} ReplacedAt(first: string, renames: seq<string>, m: nat)
    requires Distinct(renames) && m < |renames|
    ensures Replaced(first, renames, renames[m]) == LastOr(first, renames[..m])
  {
    if m < |renames| - 1 {
      var before := renames[..|renames| - 1];
      ReplacedAt(first, before, m);
      assert before[..m] == renames[..m];
    }
  }

  lemma ReplacedStays(first: string, renames: seq<string>, more: string, token: string)
    requires token != more
    ensures Replaced(first, renames + [more], token) == Replaced(first, renames, token)
  {
    assert (renames + [more])[..|renames|] == renames;
  }

  /** A renaming changes nothing of what the swaps before it have done. */
  lemma {:induction false} AcceptedStays(first: string, renames: seq<string>, more: string, swaps: seq<string>)
    requires more !in swaps
    ensures AcceptedAfter(first, renames + [more], swaps) == AcceptedAfter(first, renames, swaps)
  {
    if swaps != [] {
      AcceptedStays(first, renames, more, swaps[..|swaps| - 1]);
      ReplacedStays(first, renames, more, swaps[|swaps| - 1]);
    }
  }

  lemma {:induction false} InOrderLeavesOne(first: string, renames: seq<string>, k: nat)
    requires Distinct(renames) && k <= |renames|
    ensures AcceptedAfter(first, renames, renames[..k]) == {LastOr(first, renames[..k])}
  {
    if k > 0 {
      InOrderLeavesOne(first, renames, k - 1);
      assert renames[..k][..k - 1] == renames[..k - 1];
      ReplacedAt(first, renames, k - 1);
    }
  }

  /** A token put in stays in while nothing that replaces it is swapped. */
  lemma {:induction false} StaysAccepted(first: string, renames: seq<string>, swaps: seq<string>, i: nat, k: nat)
    requires Distinct(swaps) && i < k <= |swaps|
    requires forall j | i < j < k :: Replaced(first, renames, swaps[j]) != swaps[i]
    ensures swaps[i] in AcceptedAfter(first, renames, swaps[..k])
  {
    assert swaps[..k][..k - 1] == swaps[..k - 1];
    if i < k - 1 {
      StaysAccepted(first, renames, swaps, i, k - 1);
    }
  }

  predicate Permutes(a: seq<string>, b: seq<string>) {
    Distinct(a) && Distinct(b) && (forall t | t in a :: t in b) && (forall t | t in b :: t in a)
  }

  lemma SameLength(a: seq<string>, b: seq<string>)
    requires Permutes(a, b)
    ensures |a| == |b|
  {
    DistinctCount(a);
    DistinctCount(b);
    assert (set t | t in a) == (set t | t in b);
  }

  lemma {:induction false} DistinctCount(a: seq<string>)
    requires Distinct(a)
    ensures |set t | t in a| == |a|
  {
    if a != [] {
      var before := a[..|a| - 1];
      DistinctCount(before);
      assert a == before + [a[|a| - 1]];
      assert (set t | t in a) == (set t | t in before) + {a[|a| - 1]};
    }
  }

  /** Beyond a common prefix, equal elements are both beyond it. */
  lemma BeyondPrefix(a: seq<string>, b: seq<string>, n: nat, i: nat, k: nat)
    requires Distinct(b) && n <= |a| && n <= |b| && a[..n] == b[..n] && i < |a| && k < |b| && a[i] == b[k] && k >= n
    ensures i >= n
  {
    assert forall j | 0 <= j < n :: a[j] == a[..n][j] == b[..n][j] == b[j];
  }

  lemma NeverTakenOut(first: string, renames: seq<string>, swaps: seq<string>, m: nat, i: nat, k: nat)
    requires Permutes(renames, swaps) && first !in renames && 0 < m < |renames| && i < |swaps| && k < i
    requires swaps[k] == renames[m] && swaps[i] == renames[m - 1]
    ensures forall j | i < j < |swaps| :: Replaced(first, renames, swaps[j]) != swaps[i]
  {
    forall j | i < j < |swaps| ensures Replaced(first, renames, swaps[j]) != swaps[i] {
      assert swaps[j] in swaps;
      var l :| 0 <= l < |renames| && renames[l] == swaps[j];
      ReplacedAt(first, renames, l);
      assert l != m && renames[m - 1] in renames;
    }
  }

  /** Where the orders first part, a token is swapped before the one it replaced, which is then never taken out. */
  lemma OutOfOrderLeavesAnother(first: string, renames: seq<string>, swaps: seq<string>, n: nat)
    requires Permutes(renames, swaps) && first !in renames && n < |renames|
    requires |swaps| == |renames| && swaps[..n] == renames[..n] && swaps[n] != renames[n]
    ensures exists t | t in AcceptedAfter(first, renames, swaps) :: t != LastOr(first, renames)
  {
    assert swaps[n] in swaps;
    var m :| 0 <= m < |renames| && renames[m] == swaps[n];
    BeyondPrefix(renames, swaps, n, m, n);
    assert renames[m - 1] in renames;
    var i :| 0 <= i < |swaps| && swaps[i] == renames[m - 1];
    BeyondPrefix(swaps, renames, n, i, m - 1);
    assert renames[m - 1] != renames[m];
    NeverTakenOut(first, renames, swaps, m, i, n);
    StaysAccepted(first, renames, swaps, i, |swaps|);
    assert swaps[..|swaps|] == swaps;
    assert swaps[i] != LastOr(first, renames);
  }

  lemma FirstDifference(a: seq<string>, b: seq<string>) returns (n: nat)
    requires |a| == |b| && a != b
    ensures n < |a| && a[..n] == b[..n] && a[n] != b[n]
  {
    assert a[..|a|] == a && b[..|b|] == b;
    n := 0;
    while n < |a| && a[n] == b[n]
      invariant n <= |a| && a[..n] == b[..n]
    {
      assert a[..n + 1] == a[..n] + [a[n]] && b[..n + 1] == b[..n] + [b[n]];
      n := n + 1;
    }
  }

  /** When all is swapped, the last name is the only token accepted exactly when the swaps came in the order of the
      renamings. */
  lemma OneTokenIffSameOrder(first: string, renames: seq<string>, swaps: seq<string>)
    requires Permutes(renames, swaps) && first !in renames
    ensures AcceptedAfter(first, renames, swaps) == {LastOr(first, renames)} <==> swaps == renames
  {
    SameLength(renames, swaps);
    if swaps == renames {
      InOrderLeavesOne(first, renames, |renames|);
      assert renames[..|renames|] == renames;
    } else {
      var n := FirstDifference(swaps, renames);
      OutOfOrderLeavesAnother(first, renames, swaps, n);
    }
  }
}
