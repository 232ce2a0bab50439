/** Facts about sequences that several components share: duplicates, filtering, flattening and sorting. */
module Sequences {

  datatype Option<+T> = None | Some(value: T) {
    function GetOr(default: T): T {
      if Some? then value else default
    }
  }

  predicate Distinct<T(==,!new)>(xs: seq<T>) {
    forall i, j :: 0 <= i < j < |xs| ==> xs[i] != xs[j]
  }

  function Elements<T(!new)>(xs: seq<T>): set<T> {
    set x | x in xs
  }

  function Filter<T(!new)>(xs: seq<T>, keep: T -> bool): (r: seq<T>)
    ensures forall x :: x in r <==> x in xs && keep(x)
  {
    if xs == [] then []
    else if keep(xs[0]) then [xs[0]] + Filter(xs[1..], keep)
    else Filter(xs[1..], keep)
  }

  lemma FilterMultiplicity<T(!new)>(xs: seq<T>, keep: T -> bool, x: T)
    ensures multiset(Filter(xs, keep))[x] == if keep(x) then multiset(xs)[x] else 0
  {
    if xs != [] {
      FilterMultiplicity(xs[1..], keep, x);
      assert xs == [xs[0]] + xs[1..];
    }
  }

  lemma {:induction false} FilterAppend<T(!new)>(xs: seq<T>, ys: seq<T>, keep: T -> bool)
    ensures Filter(xs + ys, keep) == Filter(xs, keep) + Filter(ys, keep)
  {
    if xs == [] {
      assert xs + ys == ys;
    } else {
      assert (xs + ys)[1..] == xs[1..] + ys;
      FilterAppend(xs[1..], ys, keep);
    }
  }

  /** The members that occur again after an earlier occurrence, as a loop over a `seen` set reports them. */
  function RepeatsAfter<T(==,!new)>(xs: seq<T>, seen: set<T>): seq<T> {
    if xs == [] then []
    else (if xs[0] in seen then [xs[0]] else []) + RepeatsAfter(xs[1..], seen + {xs[0]})
  }

  function Repeats<T(==,!new)>(xs: seq<T>): seq<T> {
    RepeatsAfter(xs, {})
  }

  lemma {:induction false} RepeatsAfterSnoc<T(!new)>(xs: seq<T>, x: T, seen: set<T>)
    ensures RepeatsAfter(xs + [x], seen)
         == RepeatsAfter(xs, seen) + if x in seen || x in xs then [x] else []
  {
    if xs == [] {
      assert xs + [x] == [x] && [x][1..] == [];
    } else {
      var now := seen + {xs[0]};
      assert (xs + [x])[1..] == xs[1..] + [x];
      RepeatsAfterSnoc(xs[1..], x, now);
      assert x in now || x in xs[1..] <==> x in seen || x in xs;
      assert RepeatsAfter(xs, seen) == (if xs[0] in seen then [xs[0]] else []) + RepeatsAfter(xs[1..], now);
    }
  }

  lemma NoRepeatsAfter<T(!new)>(xs: seq<T>, seen: set<T>)
    ensures RepeatsAfter(xs, seen) == [] <==> Distinct(xs) && forall x :: x in xs ==> x !in seen
  {
    if xs != [] {
      NoRepeatsAfter(xs[1..], seen + {xs[0]});
      assert xs == [xs[0]] + xs[1..];
      if Distinct(xs[1..]) && xs[0] !in xs[1..] {
        forall i, j | 0 <= i < j < |xs| ensures xs[i] != xs[j] {
          assert xs[j] == xs[1..][j - 1];
          if i > 0 { assert xs[i] == xs[1..][i - 1]; }
        }
      }
      if Distinct(xs) {
        forall i, j | 0 <= i < j < |xs[1..]| ensures xs[1..][i] != xs[1..][j] {
          assert xs[i + 1] != xs[j + 1];
        }
      }
    }
  }

  /** A report of repeats is empty exactly when nothing occurs twice. */
  lemma NoRepeats<T(!new)>(xs: seq<T>)
    ensures Repeats(xs) == [] <==> Distinct(xs)
  {
    NoRepeatsAfter(xs, {});
  }

  lemma DistinctMultiplicity<T(!new)>(xs: seq<T>, x: T)
    requires Distinct(xs)
    ensures multiset(xs)[x] == if x in xs then 1 else 0
  {
    if xs != [] {
      assert xs == [xs[0]] + xs[1..];
      assert xs[0] !in xs[1..];
      DistinctMultiplicity(xs[1..], x);
    }
  }

  lemma MultiplicityDistinct<T(!new)>(xs: seq<T>)
    requires forall x :: x in xs ==> multiset(xs)[x] <= 1
    ensures Distinct(xs)
  {
    forall i, j | 0 <= i < j < |xs| ensures xs[i] != xs[j] {
      assert xs == xs[..j] + xs[j..];
      assert xs[i] == xs[..j][i];
      assert xs[j] == xs[j..][0];
      assert multiset(xs) == multiset(xs[..j]) + multiset(xs[j..]);
      assert multiset(xs)[xs[i]] <= 1;
    }
  }

  /** Two duplicate-free sequences with the same members are permutations of each other. */
  lemma DistinctPermutation<T(!new)>(xs: seq<T>, ys: seq<T>)
    requires Distinct(xs) && Distinct(ys)
    requires forall x :: x in xs <==> x in ys
    ensures multiset(xs) == multiset(ys)
  {
    forall x ensures multiset(xs)[x] == multiset(ys)[x] {
      DistinctMultiplicity(xs, x);
      DistinctMultiplicity(ys, x);
    }
  }

  lemma PermutationDistinct<T(!new)>(xs: seq<T>, ys: seq<T>)
    requires multiset(xs) == multiset(ys) && Distinct(xs)
    ensures Distinct(ys)
  {
    forall x | x in ys ensures multiset(ys)[x] <= 1 {
      DistinctMultiplicity(xs, x);
    }
    MultiplicityDistinct(ys);
  }

  function RemoveAt<T(!new)>(xs: seq<T>, i: nat): seq<T>
    requires i < |xs|
  {
    xs[..i] + xs[i + 1..]
  }

  lemma RemovedMembers<T(!new)>(xs: seq<T>, i: nat)
    requires i < |xs|
    ensures multiset(RemoveAt(xs, i)) == multiset(xs) - multiset{xs[i]}
  {
    assert xs == xs[..i] + ([xs[i]] + xs[i + 1..]);
  }

  /** First occurrences only, in order: `[...new Set(xs)]`. */
  function Dedup<T(==,!new)>(xs: seq<T>): (r: seq<T>)
    ensures forall x :: x in r <==> x in xs
    ensures Distinct(r)
  {
    if xs == [] then []
    else
      var init := Dedup(xs[..|xs| - 1]);
      var last := xs[|xs| - 1];
      assert xs == xs[..|xs| - 1] + [last];
      if last in init then init else init + [last]
  }

  lemma DedupDistinct<T(!new)>(xs: seq<T>)
    requires Distinct(xs)
    ensures Dedup(xs) == xs
  {
    if xs != [] {
      DedupDistinct(xs[..|xs| - 1]);
      assert xs == xs[..|xs| - 1] + [xs[|xs| - 1]];
    }
  }

  function Flatten<T(!new)>(xss: seq<seq<T>>): seq<T> {
    if xss == [] then [] else xss[0] + Flatten(xss[1..])
  }

  lemma FlattenMembers<T(!new)>(xss: seq<seq<T>>, x: T)
    ensures x in Flatten(xss) <==> exists k :: 0 <= k < |xss| && x in xss[k]
  {
    if xss != [] {
      FlattenMembers(xss[1..], x);
      if x in xss[0] {
      } else if x in Flatten(xss[1..]) {
        var k :| 0 <= k < |xss[1..]| && x in xss[1..][k];
        assert x in xss[k + 1];
      }
    }
  }

  lemma FlattenSnoc<T(!new)>(xss: seq<seq<T>>, xs: seq<T>)
    ensures Flatten(xss + [xs]) == Flatten(xss) + xs
  {
    if xss == [] {
      assert xss + [xs] == [xs];
    } else {
      assert (xss + [xs])[1..] == xss[1..] + [xs];
      FlattenSnoc(xss[1..], xs);
    }
  }

  lemma {:induction false} FlattenEmpty<T(!new)>(xss: seq<seq<T>>)
    ensures Flatten(xss) == [] <==> forall k :: 0 <= k < |xss| ==> xss[k] == []
  {
    if xss != [] {
      var rest := xss[1..];
      FlattenEmpty(rest);
      assert Flatten(xss) == [] <==> xss[0] == [] && Flatten(rest) == [];
      forall k | 0 <= k < |rest| ensures rest[k] == xss[k + 1] {}
      if Flatten(rest) == [] {
        forall k | 1 <= k < |xss| ensures xss[k] == [] { assert rest[k - 1] == []; }
      }
    }
  }

  lemma FlattenUpdate<T(!new)>(xss: seq<seq<T>>, k: nat, x: T)
    requires k < |xss|
    ensures multiset(Flatten(xss[k := xss[k] + [x]])) == multiset(Flatten(xss)) + multiset{x}
  {
    if k == 0 {
      assert xss[k := xss[k] + [x]][1..] == xss[1..];
    } else {
      assert xss[k := xss[k] + [x]][1..] == xss[1..][k - 1 := xss[1..][k - 1] + [x]];
      FlattenUpdate(xss[1..], k - 1, x);
    }
  }

  /** Permuting every part permutes the whole. */
  lemma FlattenPermuted<T(!new)>(xss: seq<seq<T>>, yss: seq<seq<T>>)
    requires |xss| == |yss|
    requires forall k :: 0 <= k < |xss| ==> multiset(xss[k]) == multiset(yss[k])
    ensures multiset(Flatten(xss)) == multiset(Flatten(yss))
  {
    if xss != [] {
      FlattenPermuted(xss[1..], yss[1..]);
    }
  }

  lemma FlattenPart<T(!new)>(xss: seq<seq<T>>, k: nat)
    requires k < |xss|
    ensures multiset(xss[k]) <= multiset(Flatten(xss))
  {
    if k > 0 { FlattenPart(xss[1..], k - 1); }
  }

  lemma FlattenTwoParts<T(!new)>(xss: seq<seq<T>>, j: nat, k: nat)
    requires j < k < |xss|
    ensures multiset(xss[j]) + multiset(xss[k]) <= multiset(Flatten(xss))
  {
    if j == 0 { FlattenPart(xss[1..], k - 1); } else { FlattenTwoParts(xss[1..], j - 1, k - 1); }
  }

  /** If the whole has no duplicates, neither has a part, and no member is in two parts. */
  lemma FlattenDistinct<T(!new)>(xss: seq<seq<T>>)
    requires Distinct(Flatten(xss))
    ensures forall k :: 0 <= k < |xss| ==> Distinct(xss[k])
    ensures forall j, k :: 0 <= j < k < |xss| ==> forall x :: x in xss[j] ==> x !in xss[k]
  {
    forall k | 0 <= k < |xss| ensures Distinct(xss[k]) {
      FlattenPart(xss, k);
      forall x | x in xss[k] ensures multiset(xss[k])[x] <= 1 { DistinctMultiplicity(Flatten(xss), x); }
      MultiplicityDistinct(xss[k]);
    }
    forall j, k, x | 0 <= j < k < |xss| && x in xss[j] ensures x !in xss[k] {
      FlattenTwoParts(xss, j, k);
      DistinctMultiplicity(Flatten(xss), x);
      assert multiset(xss[j])[x] >= 1;
    }
  }

  // ---- Sorting: the result of a sort by a total order is determined by the members alone ----

  ghost predicate TotalOrder<T(!new)>(leq: (T, T) -> bool) {
    && (forall a, b :: leq(a, b) || leq(b, a))
    && (forall a, b :: leq(a, b) && leq(b, a) ==> a == b)
    && (forall a, b, c :: leq(a, b) && leq(b, c) ==> leq(a, c))
  }

  predicate SortedBy<T(!new)>(xs: seq<T>, leq: (T, T) -> bool) {
    forall i, j :: 0 <= i < j < |xs| ==> leq(xs[i], xs[j])
  }

  function Insert<T(!new)>(x: T, xs: seq<T>, leq: (T, T) -> bool): seq<T> {
    if xs == [] then [x]
    else if leq(x, xs[0]) then [x] + xs
    else [xs[0]] + Insert(x, xs[1..], leq)
  }

  function Sort<T(!new)>(xs: seq<T>, leq: (T, T) -> bool): seq<T> {
    if xs == [] then [] else Insert(xs[0], Sort(xs[1..], leq), leq)
  }

  lemma InsertKeeps<T(!new)>(x: T, xs: seq<T>, leq: (T, T) -> bool)
    ensures multiset(Insert(x, xs, leq)) == multiset(xs) + multiset{x}
    ensures forall y :: y in Insert(x, xs, leq) ==> y == x || y in xs
  {
    if xs != [] && !leq(x, xs[0]) {
      InsertKeeps(x, xs[1..], leq);
      assert xs == [xs[0]] + xs[1..];
    }
  }

  lemma InsertSorted<T(!new)>(x: T, xs: seq<T>, leq: (T, T) -> bool)
    requires TotalOrder(leq) && SortedBy(xs, leq)
    ensures SortedBy(Insert(x, xs, leq), leq)
  {
    if xs == [] {
    } else if leq(x, xs[0]) {
      forall j | 0 < j < |xs| ensures leq(x, xs[j]) { assert leq(xs[0], xs[j]); }
    } else {
      var rest := Insert(x, xs[1..], leq);
      InsertSorted(x, xs[1..], leq);
      InsertKeeps(x, xs[1..], leq);
      forall j | 0 <= j < |rest| ensures leq(xs[0], rest[j]) {
        assert rest[j] == x || rest[j] in xs[1..];
      }
    }
  }

  lemma SortKeeps<T(!new)>(xs: seq<T>, leq: (T, T) -> bool)
    ensures multiset(Sort(xs, leq)) == multiset(xs)
  {
    if xs != [] {
      SortKeeps(xs[1..], leq);
      InsertKeeps(xs[0], Sort(xs[1..], leq), leq);
      assert xs == [xs[0]] + xs[1..];
    }
  }

  lemma SortOrders<T(!new)>(xs: seq<T>, leq: (T, T) -> bool)
    requires TotalOrder(leq)
    ensures SortedBy(Sort(xs, leq), leq)
  {
    if xs != [] {
      SortOrders(xs[1..], leq);
      InsertSorted(xs[0], Sort(xs[1..], leq), leq);
    }
  }

  lemma SameMembers<T(!new)>(xs: seq<T>, ys: seq<T>)
    requires multiset(xs) == multiset(ys)
    ensures |xs| == |ys| && forall x :: x in xs <==> x in ys
  {
    assert |multiset(xs)| == |xs| && |multiset(ys)| == |ys|;
    forall x ensures x in xs <==> x in ys { assert x in multiset(xs) <==> x in multiset(ys); }
  }

  lemma SortSorts<T(!new)>(xs: seq<T>, leq: (T, T) -> bool)
    requires TotalOrder(leq)
    ensures SortedBy(Sort(xs, leq), leq)
    ensures multiset(Sort(xs, leq)) == multiset(xs)
    ensures |Sort(xs, leq)| == |xs|
    ensures forall x :: x in Sort(xs, leq) <==> x in xs
  {
    SortOrders(xs, leq);
    SortKeeps(xs, leq);
    SameMembers(Sort(xs, leq), xs);
  }

  lemma SortedHead<T(!new)>(ys: seq<T>, x: T, leq: (T, T) -> bool)
    requires TotalOrder(leq) && SortedBy(ys, leq) && x in ys
    ensures leq(ys[0], x)
  {
    var i :| 0 <= i < |ys| && ys[i] == x;
    if i == 0 { Reflexive(x, leq); }
  }

  lemma Reflexive<T(!new)>(x: T, leq: (T, T) -> bool)
    requires TotalOrder(leq)
    ensures leq(x, x)
  {
    assert leq(x, x) || leq(x, x);
  }

  lemma SortedHeads<T(!new)>(xs: seq<T>, ys: seq<T>, leq: (T, T) -> bool)
    requires TotalOrder(leq) && SortedBy(xs, leq) && SortedBy(ys, leq) && multiset(xs) == multiset(ys) && xs != []
      && ys != []
    ensures xs[0] == ys[0] && multiset(xs[1..]) == multiset(ys[1..])
  {
    SameMembers(xs, ys);
    SortedHead(ys, xs[0], leq);
    SortedHead(xs, ys[0], leq);
    assert xs == [xs[0]] + xs[1..] && ys == [ys[0]] + ys[1..];
    assert multiset(xs[1..]) == multiset(xs) - multiset{xs[0]};
  }

  lemma {:induction false} SortedUnique<T(!new)>(xs: seq<T>, ys: seq<T>, leq: (T, T) -> bool)
    requires TotalOrder(leq)
    requires SortedBy(xs, leq) && SortedBy(ys, leq)
    requires multiset(xs) == multiset(ys)
    ensures xs == ys
  {
    SameMembers(xs, ys);
    if xs != [] {
      SortedHeads(xs, ys, leq);
      SortedUnique(xs[1..], ys[1..], leq);
    }
  }

  /** Permutations sort to the same sequence. */
  lemma SortCanonical<T(!new)>(xs: seq<T>, ys: seq<T>, leq: (T, T) -> bool)
    requires TotalOrder(leq) && multiset(xs) == multiset(ys)
    ensures Sort(xs, leq) == Sort(ys, leq)
  {
    SortSorts(xs, leq);
    SortSorts(ys, leq);
    SortedUnique(Sort(xs, leq), Sort(ys, leq), leq);
  }
}
