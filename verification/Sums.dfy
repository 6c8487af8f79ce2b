/** Sums of multisets, concatenations and the sizes of index sets. */
module Sums {

  function Total<T>(parts: seq<multiset<T>>): multiset<T> {
    if parts == [] then multiset{} else Total(parts[..|parts| - 1]) + parts[|parts| - 1]
  }

  lemma Rearrange<T>(a: multiset<T>, b: multiset<T>, c: multiset<T>, d: multiset<T>, more: multiset<T>)
    requires a + b == c + d
    ensures (a + more) + b == (c + more) + d
  {
    forall x
      ensures ((a + more) + b)[x] == ((c + more) + d)[x]
    {
      assert (a + b)[x] == (c + d)[x];
    }
  }

  /** Replacing one summand. */
  lemma {:induction false} TotalUpdate<T>(parts: seq<multiset<T>>, k: nat, part: multiset<T>)
    requires k < |parts|
    ensures Total(parts[k := part]) + parts[k] == Total(parts) + part
  {
    var updated := parts[k := part];
    if k < |parts| - 1 {
      var init, last := parts[..|parts| - 1], parts[|parts| - 1];
      TotalUpdate(init, k, part);
      assert updated[..|parts| - 1] == init[k := part];
      assert Total(updated) == Total(init[k := part]) + last;
      Rearrange(Total(init[k := part]), init[k], Total(init), part, last);
    } else {
      assert updated[..|parts| - 1] == parts[..|parts| - 1];
    }
  }

  lemma {:induction false} TotalEmpty<T>(parts: seq<multiset<T>>)
    requires forall k :: 0 <= k < |parts| ==> parts[k] == multiset{}
    ensures Total(parts) == multiset{}
  {
    if parts != [] {
      TotalEmpty(parts[..|parts| - 1]);
    }
  }

  /** The summands that belong to group `g`. */
  function InGroup<T>(parts: seq<multiset<T>>, group: seq<nat>, g: nat): seq<multiset<T>>
    requires |group| == |parts|
  {
    seq(|parts|, k requires 0 <= k < |parts| => if group[k] == g then parts[k] else multiset{})
  }

  function GroupTotals<T>(parts: seq<multiset<T>>, group: seq<nat>, groups: nat): seq<multiset<T>>
    requires |group| == |parts|
  {
    seq(groups, g requires 0 <= g < groups => Total(InGroup(parts, group, g)))
  }

  /** Summing group by group loses nothing. */
  lemma {:induction false} TotalByGroup<T>(parts: seq<multiset<T>>, group: seq<nat>, groups: nat)
    requires |group| == |parts|
    requires forall k :: 0 <= k < |group| ==> group[k] < groups
    ensures Total(GroupTotals(parts, group, groups)) == Total(parts)
  {
    hide Total, InGroup, GroupTotals;
    if parts == [] {
      NoTotals<T>(group, groups);
    } else {
      var n := |parts| - 1;
      TotalByGroup(parts[..n], group[..n], groups);
      OneMoreSummand(parts, group, groups);
    }
  }

  lemma NoTotals<T>(group: seq<nat>, groups: nat)
    requires group == []
    ensures Total(GroupTotals<T>([], group, groups)) == Total<T>([])
  {
    var totals := GroupTotals<T>([], group, groups);
    forall g | 0 <= g < groups
      ensures totals[g] == multiset{}
    {
      TotalEmpty(InGroup<T>([], group, g));
    }
    TotalEmpty(totals);
  }

  lemma OneMoreSummand<T>(parts: seq<multiset<T>>, group: seq<nat>, groups: nat)
    requires |group| == |parts| > 0
    requires forall k :: 0 <= k < |group| ==> group[k] < groups
    requires var n := |parts| - 1; Total(GroupTotals(parts[..n], group[..n], groups)) == Total(parts[..n])
    ensures Total(GroupTotals(parts, group, groups)) == Total(parts)
  {
    hide InGroup;
    var n := |parts| - 1;
    var totals, before := GroupTotals(parts, group, groups), GroupTotals(parts[..n], group[..n], groups);
    var g0 := group[n];
    forall g | 0 <= g < groups
      ensures totals[g] == if g == g0 then before[g] + parts[n] else before[g]
    {
      GroupTotalStep(parts, group, g);
    }
    assert totals == before[g0 := before[g0] + parts[n]];
    TotalUpdate(before, g0, before[g0] + parts[n]);
    assert Total(totals) + before[g0] == Total(parts) + before[g0];
    Cancel(Total(totals), Total(parts), before[g0]);
  }

  lemma GroupTotalStep<T>(parts: seq<multiset<T>>, group: seq<nat>, g: nat)
    requires |group| == |parts| > 0
    ensures var n := |parts| - 1;
            Total(InGroup(parts, group, g)) ==
            Total(InGroup(parts[..n], group[..n], g)) + if group[n] == g then parts[n] else multiset{}
  {
    var n := |parts| - 1;
    assert InGroup(parts, group, g)[..n] == InGroup(parts[..n], group[..n], g);
  }

  lemma Cancel<T>(a: multiset<T>, b: multiset<T>, c: multiset<T>)
    requires a + c == b + c
    ensures a == b
  {
    assert a == (a + c) - c;
    assert b == (b + c) - c;
  }

  function Flatten<T>(xs: seq<seq<T>>): seq<T> {
    if xs == [] then [] else Flatten(xs[..|xs| - 1]) + xs[|xs| - 1]
  }

  lemma FlattenAppend<T>(xs: seq<seq<T>>, x: seq<T>)
    ensures Flatten(xs + [x]) == Flatten(xs) + x
  {
    assert (xs + [x])[..|xs|] == xs;
  }

  lemma {:induction false} SubsetSize<T>(a: set<T>, b: set<T>)
    requires a <= b
    ensures |a| <= |b|
    ensures a != b ==> |a| < |b|
  {
    if x :| x in a {
      SubsetSize(a - {x}, b - {x});
    } else if y :| y in b {
      assert a == {};
    }
  }

  lemma OneMore<T>(a: set<T>, b: set<T>, x: T, added: bool)
    requires forall y :: y in b <==> y in a || (added && y == x)
    requires added ==> x !in a
    ensures |b| == |a| + if added then 1 else 0
  {
    if added {
      assert b == a + {x};
    } else {
      assert b == a;
    }
  }

  lemma {:induction false} RangeSize(s: set<nat>, lo: nat, n: nat)
    requires forall k: nat :: k in s <==> lo <= k < lo + n
    ensures |s| == n
  {
    if n == 0 {
      assert s == {};
    } else {
      RangeSize(s - {lo + n - 1}, lo, n - 1);
    }
  }

  function TotalNat(parts: seq<nat>): nat {
    if parts == [] then 0 else TotalNat(parts[..|parts| - 1]) + parts[|parts| - 1]
  }

  lemma {:induction false} TotalNatUpdate(parts: seq<nat>, k: nat, part: nat)
    requires k < |parts|
    ensures TotalNat(parts[k := part]) + parts[k] == TotalNat(parts) + part
  {
    var updated := parts[k := part];
    if k < |parts| - 1 {
      TotalNatUpdate(parts[..|parts| - 1], k, part);
      assert updated[..|parts| - 1] == parts[..|parts| - 1][k := part];
    } else {
      assert updated[..|parts| - 1] == parts[..|parts| - 1];
    }
  }
}
