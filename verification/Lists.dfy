/** The string-list helpers of the operator: sets, in-place comparison, comma-joined lists and
  truncated label values. */
module Lists {

  predicate Distinct<T(==)>(xs: seq<T>) {
    forall i, j :: 0 <= i < j < |xs| ==> xs[i] != xs[j]
  }

  function Elems<T>(xs: seq<T>): set<T> {
    set x | x in xs
  }

  lemma DistinctAppend<T>(xs: seq<T>, x: T)
    requires Distinct(xs) && x !in xs
    ensures Distinct(xs + [x]) && Elems(xs + [x]) == Elems(xs) + {x}
  {
    assert forall y :: y in xs + [x] <==> y in xs || y == x;
  }

  /** A duplicate-free list is determined, up to order, by its elements. */
  lemma {:induction false} DistinctMultiset<T>(xs: seq<T>)
    requires Distinct(xs)
    ensures multiset(xs) == multiset(Elems(xs))
  {
    if xs == [] {
      assert Elems(xs) == {};
    } else {
      var init, x := xs[..|xs| - 1], xs[|xs| - 1];
      assert xs == init + [x];
      assert x !in init;
      DistinctAppend(init, x);
      DistinctMultiset(init);
    }
  }

  // ---------------------------------------------------------------------------------------------
  // Sets of strings
  // ---------------------------------------------------------------------------------------------

  method MakeSet(strs: seq<string>) returns (s: set<string>)
    ensures s == Elems(strs)
  {
    s := {};
    for i := 0 to |strs|
      invariant s == Elems(strs[..i])
    {
      s := s + {strs[i]};
      assert strs[..i + 1] == strs[..i] + [strs[i]];
    }
    assert strs[..|strs|] == strs;
  }

  /** The order in which a set is iterated is arbitrary. */
  method ToStringSlice(s: set<string>) returns (strs: seq<string>)
    ensures Distinct(strs) && Elems(strs) == s
  {
    strs := [];
    var rest := s;
    while rest != {}
      invariant rest <= s && Distinct(strs) && Elems(strs) == s - rest
    {
      var x :| x in rest;
      DistinctAppend(strs, x);
      strs := strs + [x];
      rest := rest - {x};
    }
  }

  method GetListDifference(slice1: seq<string>, slice2: seq<string>) returns (diff: seq<string>)
    ensures Distinct(diff) && Elems(diff) == Elems(slice1) - Elems(slice2)
  {
    var set1 := MakeSet(slice1);
    var set2 := MakeSet(slice2);
    diff := ToStringSlice(set1 - set2);
  }

  method StringSliceContentEqual(slice1: seq<string>, slice2: seq<string>) returns (equal: bool)
    ensures equal <==> Elems(slice1) == Elems(slice2)
  {
    var set1 := MakeSet(slice1);
    var set2 := MakeSet(slice2);
    equal := set1 == set2;
  }

  method Contains(list: seq<string>, s: string) returns (found: bool)
    ensures found <==> s in list
  {
    for i := 0 to |list|
      invariant s !in list[..i]
    {
      if list[i] == s {
        return true;
      }
    }
    return false;
  }

  // ---------------------------------------------------------------------------------------------
  // Sorting and comparing
  // ---------------------------------------------------------------------------------------------

  /** Lexicographic order. */
  predicate Leq(a: string, b: string) {
    a == [] || (b != [] && (a[0] < b[0] || (a[0] == b[0] && Leq(a[1..], b[1..]))))
  }

  lemma LeqAntisymmetric(a: string, b: string)
    requires Leq(a, b) && Leq(b, a)
    ensures a == b
  {
  }

  lemma LeqTotal(a: string, b: string)
    ensures Leq(a, b) || Leq(b, a)
  {
  }

  lemma LeqTransitive(a: string, b: string, c: string)
    requires Leq(a, b) && Leq(b, c)
    ensures Leq(a, c)
  {
  }

  predicate Sorted(xs: seq<string>) {
    forall i, j :: 0 <= i < j < |xs| ==> Leq(xs[i], xs[j])
  }

  function Insert(x: string, xs: seq<string>): seq<string> {
    if xs == [] || Leq(x, xs[0]) then [x] + xs else [xs[0]] + Insert(x, xs[1..])
  }

  /** The sorted permutation of a list: what the library sort leaves in the slice. */
  function InOrder(xs: seq<string>): seq<string> {
    if xs == [] then [] else Insert(xs[0], InOrder(xs[1..]))
  }

  lemma {:induction false} InsertSorted(x: string, xs: seq<string>)
    requires Sorted(xs)
    ensures Sorted(Insert(x, xs)) && multiset(Insert(x, xs)) == multiset(xs) + multiset{x}
  {
    hide Leq;
    if xs == [] {
    } else if Leq(x, xs[0]) {
      forall j | 0 <= j < |xs|
        ensures Leq(x, xs[j])
      {
        if j > 0 {
          LeqTransitive(x, xs[0], xs[j]);
        }
      }
    } else {
      var tail := Insert(x, xs[1..]);
      InsertSorted(x, xs[1..]);
      LeqTotal(x, xs[0]);
      assert xs == [xs[0]] + xs[1..];
      forall j | 0 <= j < |tail|
        ensures Leq(xs[0], tail[j])
      {
        assert tail[j] in multiset(tail);
        assert tail[j] == x || tail[j] in xs[1..];
      }
    }
  }

  lemma {:induction false} InOrderSorts(xs: seq<string>)
    ensures Sorted(InOrder(xs)) && multiset(InOrder(xs)) == multiset(xs)
  {
    if xs != [] {
      InOrderSorts(xs[1..]);
      InsertSorted(xs[0], InOrder(xs[1..]));
      assert xs == [xs[0]] + xs[1..];
    }
  }

  lemma SortedHead(a: seq<string>, x: string)
    requires Sorted(a) && x in a
    ensures Leq(a[0], x) || a[0] == x
  {
    hide Leq;
    var i :| 0 <= i < |a| && a[i] == x;
  }

  lemma HeadsAgree(a: seq<string>, b: seq<string>)
    requires a != [] && Sorted(a) && Sorted(b) && multiset(a) == multiset(b)
    ensures b != [] && a[0] == b[0]
  {
    hide Leq;
    assert a[0] in multiset(a);
    assert a[0] in b;
    assert b[0] in multiset(b);
    assert b[0] in a;
    SortedHead(a, b[0]);
    SortedHead(b, a[0]);
    if a[0] != b[0] {
      LeqAntisymmetric(a[0], b[0]);
    }
  }

  lemma {:induction false} SortedUnique(a: seq<string>, b: seq<string>)
    requires Sorted(a) && Sorted(b) && multiset(a) == multiset(b)
    ensures a == b
  {
    hide Leq;
    assert |a| == |multiset(a)| == |multiset(b)| == |b|;
    if a != [] {
      HeadsAgree(a, b);
      assert a == [a[0]] + a[1..] && b == [b[0]] + b[1..];
      assert multiset(a[1..]) == multiset(a) - multiset{a[0]};
      assert multiset(b[1..]) == multiset(b) - multiset{b[0]};
      SortedUnique(a[1..], b[1..]);
    }
  }

  /** Sorting identifies exactly the lists that are permutations of each other. */
  lemma InOrderEqualIff(a: seq<string>, b: seq<string>)
    ensures InOrder(a) == InOrder(b) <==> multiset(a) == multiset(b)
  {
    InOrderSorts(a);
    InOrderSorts(b);
    if multiset(a) == multiset(b) {
      SortedUnique(InOrder(a), InOrder(b));
    }
  }

  method SortStrings(a: array<string>)
    modifies a
    ensures a[..] == InOrder(old(a[..]))
  {
    var sorted := InOrder(a[..]);
    InOrderSorts(a[..]);
    assert |sorted| == |multiset(sorted)| == |multiset(a[..])| == a.Length;
    for i := 0 to a.Length
      invariant forall j :: 0 <= j < i ==> a[j] == sorted[j]
    {
      a[i] := sorted[i];
    }
  }

  /** `true` when the lists differ as multisets.  The arguments are sorted on the way, unless their
    lengths already tell them apart.  The two may be the same array. */
  method CheckListDifference(slice1: array<string>, slice2: array<string>) returns (differ: bool)
    modifies slice1, slice2
    ensures differ <==> multiset(old(slice1[..])) != multiset(old(slice2[..]))
    ensures slice1.Length != slice2.Length ==>
              slice1[..] == old(slice1[..]) && slice2[..] == old(slice2[..])
    ensures slice1.Length == slice2.Length ==>
              slice1[..] == InOrder(old(slice1[..])) && slice2[..] == InOrder(old(slice2[..]))
  {
    ghost var s1, s2 := slice1[..], slice2[..];
    if slice1.Length != slice2.Length {
      assert |multiset(s1)| != |multiset(s2)|;
      return true;
    }
    SortStrings(slice1);
    SortStrings(slice2);
    InOrderSorts(s1);
    InOrderEqualIff(InOrder(s1), s1);
    InOrderEqualIff(s1, s2);
    assert slice1[..] == InOrder(s1) && slice2[..] == InOrder(s2);
    for i := 0 to slice1.Length
      invariant slice1[..i] == slice2[..i]
    {
      if slice1[i] != slice2[i] {
        assert slice1[..] != slice2[..];
        return true;
      }
    }
    assert slice1[..] == slice1[..slice1.Length] == slice2[..slice2.Length] == slice2[..];
    return false;
  }

  /** Equal as multisets implies equal as sets; for duplicate-free lists the converse holds too. */
  lemma ListDifferenceVersusContent(a: seq<string>, b: seq<string>)
    ensures multiset(a) == multiset(b) ==> Elems(a) == Elems(b)
    ensures Distinct(a) && Distinct(b) ==> (multiset(a) == multiset(b) <==> Elems(a) == Elems(b))
  {
    if multiset(a) == multiset(b) {
      forall x
        ensures x in a <==> x in b
      {
        assert x in a <==> x in multiset(a);
      }
    }
    if Distinct(a) && Distinct(b) {
      DistinctMultiset(a);
      DistinctMultiset(b);
    }
  }

  // ---------------------------------------------------------------------------------------------
  // Comma-joined lists
  // ---------------------------------------------------------------------------------------------

  const COMMA := ','

  function Join(xs: seq<string>): string {
    if xs == [] then "" else if |xs| == 1 then xs[0] else xs[0] + [COMMA] + Join(xs[1..])
  }

  /** The separator, written out. */
  lemma {:induction false} JoinedByCommas(xs: seq<string>, ys: seq<string>)
    requires xs != [] && ys != []
    ensures Join(xs + ys) == Join(xs) + "," + Join(ys)
  {
    assert (xs + ys)[1..] == xs[1..] + ys;
    if |xs| > 1 {
      JoinedByCommas(xs[1..], ys);
    } else {
      assert xs[1..] + ys == ys;
    }
  }

  function Split(s: string): (parts: seq<string>)
    ensures parts != []
  {
    if s == "" then [""]
    else
      var rest := Split(s[1..]);
      if s[0] == COMMA then [""] + rest else [[s[0]] + rest[0]] + rest[1..]
  }

  predicate CommaFree(xs: seq<string>) {
    forall i :: 0 <= i < |xs| ==> COMMA !in xs[i]
  }

  lemma {:induction false} SplitPlain(s: string)
    requires COMMA !in s
    ensures Split(s) == [s]
  {
    if s != "" {
      SplitPlain(s[1..]);
      assert s[0] in s;
      assert [s[0]] + s[1..] == s;
    }
  }

  lemma {:induction false} SplitHead(s: string, t: string)
    requires COMMA !in s
    ensures Split(s + [COMMA] + t) == [s] + Split(t)
  {
    var whole := s + [COMMA] + t;
    if s == "" {
      assert whole[1..] == t;
    } else {
      SplitHead(s[1..], t);
      assert whole[1..] == s[1..] + [COMMA] + t;
      assert s == [s[0]] + s[1..];
    }
  }

  /** Splitting a joined list gives the list back. */
  lemma {:induction false} SplitJoin(xs: seq<string>)
    requires xs != [] && CommaFree(xs)
    ensures Split(Join(xs)) == xs
  {
    if |xs| == 1 {
      SplitPlain(xs[0]);
    } else {
      SplitHead(xs[0], Join(xs[1..]));
      SplitJoin(xs[1..]);
    }
  }

  lemma JoinUnfold(x: string, xs: seq<string>)
    ensures Join([x] + xs) == if xs == [] then x else x + [COMMA] + Join(xs)
  {
    assert ([x] + xs)[1..] == xs;
  }

  lemma JoinFront(c: char, xs: seq<string>)
    requires xs != []
    ensures Join([[c] + xs[0]] + xs[1..]) == [c] + Join(xs)
    ensures Join([""] + xs) == [COMMA] + Join(xs)
  {
    hide Join;
    JoinUnfold([c] + xs[0], xs[1..]);
    JoinUnfold(xs[0], xs[1..]);
    JoinUnfold("", xs);
    assert [xs[0]] + xs[1..] == xs;
  }

  /** Joining what was split gives the text back, and the parts hold no comma. */
  lemma {:induction false} JoinSplit(s: string)
    ensures Join(Split(s)) == s && CommaFree(Split(s))
  {
    hide Join;
    if s == "" {
      JoinUnfold("", []);
      assert [""] + [] == [""];
    } else {
      JoinSplit(s[1..]);
      JoinFront(s[0], Split(s[1..]));
      assert s == [s[0]] + s[1..];
    }
  }

  // ---------------------------------------------------------------------------------------------
  // Truncation
  // ---------------------------------------------------------------------------------------------

  const TRIMMED: set<char> := {'-', '_', '.'}

  function TrimRight(s: string): (r: string)
    ensures r <= s
    ensures r != "" ==> r[|r| - 1] !in TRIMMED
    ensures forall i :: |r| <= i < |s| ==> s[i] in TRIMMED
  {
    if s != "" && s[|s| - 1] in TRIMMED then TrimRight(s[..|s| - 1]) else s
  }

  function FirstNCharacter(s: string, n: nat): (r: string)
    ensures r <= s && |r| <= n
    ensures |s| <= n ==> r == s
    ensures |s| > n && r != "" ==> r[|r| - 1] !in {'-', '_', '.'}
    ensures forall i :: |r| <= i < n && i < |s| ==> s[i] in {'-', '_', '.'}
  {
    if n >= |s| then s else TrimRight(s[..n])
  }

  /** Two texts of one length that agree wherever anything but trimmed characters follows in either. */
  predicate SameUntilTrimmed(x: string, y: string)
    requires |x| == |y|
  {
    forall i, j :: 0 <= i <= j < |x| && (x[j] !in TRIMMED || y[j] !in TRIMMED) ==> x[i] == y[i]
  }

  /** The first `n` characters of `long` are `short` and a tail of trimmed characters. */
  predicate CutTo(long: string, short: string, n: nat)
    requires |short| <= n < |long|
  {
    && short <= long[..n]
    && (short == "" || short[|short| - 1] !in TRIMMED)
    && forall i :: |short| <= i < n ==> long[i] in TRIMMED
  }

  predicate SameTruncated(a: string, b: string, n: nat) {
    if |a| <= n && |b| <= n then a == b
    else if |a| <= n then CutTo(b, a, n)
    else if |b| <= n then CutTo(a, b, n)
    else SameUntilTrimmed(a[..n], b[..n])
  }

  lemma TrimRightSameIff(x: string, y: string)
    requires |x| == |y|
    ensures TrimRight(x) == TrimRight(y) <==> SameUntilTrimmed(x, y)
  {
    var rx, ry := TrimRight(x), TrimRight(y);
    assert forall i :: 0 <= i < |rx| ==> rx[i] == x[i];
    assert forall i :: 0 <= i < |ry| ==> ry[i] == y[i];
    assert |rx| > 0 ==> x[|rx| - 1] !in TRIMMED;
    assert |ry| > 0 ==> y[|ry| - 1] !in TRIMMED;
  }

  lemma CutToIff(long: string, short: string, n: nat)
    requires |short| <= n < |long|
    ensures FirstNCharacter(long, n) == short <==> CutTo(long, short, n)
  {
    var r := FirstNCharacter(long, n);
    assert |r| > 0 ==> long[|r| - 1] == r[|r| - 1];
    assert short <= long[..n] && |short| > 0 ==> long[|short| - 1] == short[|short| - 1];
  }

  /** When truncation makes two texts the same. */
  lemma TruncatedSameIff(a: string, b: string, n: nat)
    ensures FirstNCharacter(a, n) == FirstNCharacter(b, n) <==> SameTruncated(a, b, n)
  {
    if |a| <= n < |b| {
      CutToIff(b, a, n);
    } else if |b| <= n < |a| {
      CutToIff(a, b, n);
    } else if n < |a| && n < |b| {
      TrimRightSameIff(a[..n], b[..n]);
    }
  }
}
