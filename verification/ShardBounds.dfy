/**
 * How good the greedy hand-out of ShardPlan is, against any assignment of the same files to the same number of shards:
 * Graham's bounds for list scheduling and for longest-processing-time-first.
 */
module ShardBounds {
  import opened Sequences
  import opened Text
  import opened ShardPlan

  function Total(xs: seq<real>): real {
    if xs == [] then 0.0 else xs[0] + Total(xs[1..])
  }

  /** What each part of some assignment sums to under `w`. */
  function Sums(w: string -> real, parts: seq<seq<string>>): (r: seq<real>)
    ensures |r| == |parts| && forall k :: 0 <= k < |r| ==> r[k] == SumBy(w, parts[k])
  {
    seq(|parts|, k requires 0 <= k < |parts| => SumBy(w, parts[k]))
  }

  /** The same with something on the first part already. */
  function SumsFrom(w: string -> real, parts: seq<seq<string>>, first: real): (r: seq<real>)
    ensures |r| == |parts|
    ensures forall k :: 0 <= k < |r| ==> r[k] == (if k == 0 then first else 0.0) + SumBy(w, parts[k])
  {
    seq(|parts|, k requires 0 <= k < |parts| => (if k == 0 then first else 0.0) + SumBy(w, parts[k]))
  }

  /** The loads of any assignment of files to shards, `extra` being on the first one. */
  function LoadsUnder(parts: seq<seq<string>>, seconds: Durations, extra: real): (r: seq<real>)
    ensures |r| == |parts|
    ensures forall k :: 0 <= k < |r| ==> r[k] == (if k == 0 then extra else 0.0) + SumBy(WeightIn(seconds), parts[k])
  {
    SumsFrom(WeightIn(seconds), parts, extra)
  }

  // ---- sums ----

  lemma SumByConcat(w: string -> real, xs: seq<string>, ys: seq<string>)
    ensures SumBy(w, xs + ys) == SumBy(w, xs) + SumBy(w, ys)
  {
    if xs == [] {
      assert xs + ys == ys;
    } else {
      assert (xs + ys)[1..] == xs[1..] + ys;
      SumByConcat(w, xs[1..], ys);
    }
  }

  lemma SumBySnoc(w: string -> real, xs: seq<string>, x: string)
    ensures SumBy(w, xs + [x]) == SumBy(w, xs) + w(x)
  {
    SumByConcat(w, xs, [x]);
  }

  lemma {:induction false} SumByRemoved(w: string -> real, xs: seq<string>, i: nat)
    requires i < |xs|
    ensures SumBy(w, xs) == w(xs[i]) + SumBy(w, RemoveAt(xs, i))
  {
    if i == 0 {
      assert RemoveAt(xs, 0) == xs[1..];
    } else {
      SumByRemoved(w, xs[1..], i - 1);
      assert RemoveAt(xs, i)[1..] == RemoveAt(xs[1..], i - 1);
    }
  }

  lemma SumByPermuted(w: string -> real, xs: seq<string>, ys: seq<string>)
    requires multiset(xs) == multiset(ys)
    ensures SumBy(w, xs) == SumBy(w, ys)
  {
    SameMembers(xs, ys);
    if xs != [] {
      assert xs[0] in xs;
      var i :| 0 <= i < |ys| && ys[i] == xs[0];
      SumByRemoved(w, xs, 0);
      SumByRemoved(w, ys, i);
      RemovedMembers(xs, 0);
      RemovedMembers(ys, i);
      SumByPermuted(w, RemoveAt(xs, 0), RemoveAt(ys, i));
    }
  }

  lemma SumByNonNegative(w: string -> real, xs: seq<string>)
    requires forall x :: x in xs ==> w(x) >= 0.0
    ensures SumBy(w, xs) >= 0.0
    ensures forall x :: x in xs ==> w(x) <= SumBy(w, xs)
  {
    if xs != [] {
      assert xs[0] in xs;
      forall x | x in xs[1..] ensures w(x) >= 0.0 { assert x in xs; }
      SumByNonNegative(w, xs[1..]);
      assert xs == [xs[0]] + xs[1..];
    }
  }

  lemma SumByFlatten(w: string -> real, parts: seq<seq<string>>)
    ensures SumBy(w, Flatten(parts)) == Total(Sums(w, parts))
  {
    if parts != [] {
      SumByFlatten(w, parts[1..]);
      SumByConcat(w, parts[0], Flatten(parts[1..]));
      assert Sums(w, parts)[1..] == Sums(w, parts[1..]);
    }
  }

  /** n times x, as a repeated sum: the bounds below then stay linear. */
  function Times(n: nat, x: real): real {
    if n == 0 then 0.0 else x + Times(n - 1, x)
  }

  lemma TimesIsProduct(n: nat, x: real)
    ensures Times(n, x) == n as real * x
  {
    if n > 0 {
      TimesIsProduct(n - 1, x);
      assert n as real == (n - 1) as real + 1.0;
    }
  }

  lemma TimesOfSum(n: nat, x: real, y: real, sum: real)
    requires sum == x + y
    ensures Times(n, sum) == Times(n, x) + Times(n, y)
  {
    if n > 0 { TimesOfSum(n - 1, x, y, sum); }
  }

  lemma TimesSplit(a: nat, b: nat, x: real)
    ensures Times(a + b, x) == Times(a, x) + Times(b, x)
  {
    if a > 0 { TimesSplit(a - 1, b, x); }
  }

  lemma TimesTriple(n: nat, x: real)
    ensures Times(3 * n, x) == 3.0 * Times(n, x)
  {
    TimesSplit(n, n, x);
    TimesSplit(2 * n, n, x);
  }

  lemma TimesMonotone(n: nat, x: real, y: real)
    requires x <= y
    ensures Times(n, x) <= Times(n, y)
    ensures 0.0 <= x ==> 0.0 <= Times(n, x)
  {}

  lemma TotalAtLeast(xs: seq<real>, low: real)
    requires forall k :: 0 <= k < |xs| ==> xs[k] >= low
    ensures Total(xs) >= Times(|xs|, low)
  {
    if xs != [] { TotalAtLeast(xs[1..], low); }
  }

  lemma TotalAtMost(xs: seq<real>, high: real)
    requires forall k :: 0 <= k < |xs| ==> xs[k] <= high
    ensures Total(xs) <= Times(|xs|, high)
  {
    if xs != [] { TotalAtMost(xs[1..], high); }
  }

  lemma TotalShifted(xs: seq<real>, ys: seq<real>, d: real)
    requires |xs| == |ys| && xs != []
    requires xs[0] == ys[0] + d && xs[1..] == ys[1..]
    ensures Total(xs) == Total(ys) + d
  {}

  /** Whichever assignment of the files it is, it sums to the same. */
  lemma SumsTotal(w: string -> real, files: seq<string>, parts: seq<seq<string>>, first: real)
    requires parts != [] && multiset(Flatten(parts)) == multiset(files)
    ensures Total(SumsFrom(w, parts, first)) == first + SumBy(w, files)
  {
    SumByFlatten(w, parts);
    SumByPermuted(w, Flatten(parts), files);
    assert SumsFrom(w, parts, first)[1..] == Sums(w, parts)[1..];
    TotalShifted(SumsFrom(w, parts, first), Sums(w, parts), first);
  }

  /** The loads of an assignment add up to `extra` and all the weights. */
  lemma LoadsTotal(files: seq<string>, parts: seq<seq<string>>, seconds: Durations, extra: real)
    requires parts != [] && multiset(Flatten(parts)) == multiset(files)
    ensures Total(LoadsUnder(parts, seconds, extra)) == extra + SumBy(WeightIn(seconds), files)
  {
    SumsTotal(WeightIn(seconds), files, parts, extra);
  }

  /** A sum over the whole order is at least the sum over a prefix and the next file. */
  lemma PrefixSum(w: string -> real, init: seq<string>, f: string, rest: seq<string>)
    requires forall x :: x in rest ==> w(x) >= 0.0
    ensures SumBy(w, init + [f] + rest) >= SumBy(w, init) + w(f)
  {
    SumByConcat(w, init + [f], rest);
    SumBySnoc(w, init, f);
    SumByNonNegative(w, rest);
  }

  // ---- the hand-out step by step ----

  function LoadsOf(shards: seq<Shard>): (r: seq<real>)
    ensures |r| == |shards| && forall k :: 0 <= k < |r| ==> r[k] == shards[k].load
  {
    seq(|shards|, k requires 0 <= k < |shards| => shards[k].load)
  }

  /** The shards hold exactly the files placed so far, and their recorded loads are the real ones. */
  predicate Recorded(shards: seq<Shard>, placed: seq<string>, seconds: Durations, extra: real) {
    && shards != []
    && multiset(Flatten(FilesOf(shards))) == multiset(placed)
    && forall k :: 0 <= k < |shards| ==>
      shards[k].load == (if k == 0 then extra else 0.0) + SumBy(WeightIn(seconds), shards[k].files)
  }

  lemma NothingRecorded(seconds: Durations, n: nat, extra: real)
    requires n > 0
    ensures Recorded(EmptyShards(n, extra), [], seconds, extra)
  {
    FlattenOfNothing(FilesOf(EmptyShards(n, extra)));
  }

  lemma PlaceRecorded(shards: seq<Shard>, placed: seq<string>, f: string, seconds: Durations, extra: real)
    requires Recorded(shards, placed, seconds, extra)
    ensures Recorded(Place(shards, f, Weight(seconds, f)), placed + [f], seconds, extra)
  {
    PlaceKeeps(shards, f, Weight(seconds, f));
    SumBySnoc(WeightIn(seconds), shards[Lightest(shards)].files, f);
  }

  /** n times the lightest load is at most everything placed so far. */
  lemma LightestLoad(shards: seq<Shard>, placed: seq<string>, seconds: Durations, extra: real)
    requires Recorded(shards, placed, seconds, extra)
    ensures Times(|shards|, shards[Lightest(shards)].load) <= extra + SumBy(WeightIn(seconds), placed)
  {
    hide Lightest, Total;
    var low := shards[Lightest(shards)].load;
    RecordedLoads(shards, placed, seconds, extra);
    forall k | 0 <= k < |shards| ensures low <= LoadsOf(shards)[k] { LightestLeast(shards, k); }
    TotalAtLeast(LoadsOf(shards), low);
  }

  lemma RecordedLoads(shards: seq<Shard>, placed: seq<string>, seconds: Durations, extra: real)
    requires Recorded(shards, placed, seconds, extra)
    ensures Total(LoadsOf(shards)) == extra + SumBy(WeightIn(seconds), placed)
  {
    hide Total, SumBy, Flatten;
    LoadsTotal(placed, FilesOf(shards), seconds, extra);
    assert LoadsOf(shards) == LoadsUnder(FilesOf(shards), seconds, extra);
  }

  lemma LightestLeast(shards: seq<Shard>, k: nat)
    requires k < |shards|
    ensures shards[Lightest(shards)].load <= shards[k].load
  {
    LightestOfIsLeast(shards, |shards|, k);
  }

  /** Placing a file on the lightest shard cannot lift that shard far above the average. */
  lemma PlacedLoad(shards: seq<Shard>, placed: seq<string>, w: real, seconds: Durations, extra: real, load: real,
      sum: real)
    requires Recorded(shards, placed, seconds, extra) && load == shards[Lightest(shards)].load + w
    requires extra + SumBy(WeightIn(seconds), placed) + w <= sum
    ensures Times(|shards|, load) <= sum + Times(|shards| - 1, w)
  {
    hide Lightest, Recorded;
    LightestLoad(shards, placed, seconds, extra);
    TimesOfSum(|shards|, shards[Lightest(shards)].load, w, load);
    assert Times(|shards|, w) == w + Times(|shards| - 1, w);
  }

  lemma ListSchedulingStep(rest: seq<string>, shards: seq<Shard>, placed: seq<string>, seconds: Durations, extra: real,
                           top: real, sum: real, k: nat)
    requires Recorded(shards, placed, seconds, extra) && ValidDurations(seconds) && k < |shards|
    requires forall f :: f in rest ==> Weight(seconds, f) <= top
    requires extra + SumBy(WeightIn(seconds), placed + rest) <= sum
    requires Times(|shards|, shards[k].load) <= sum + Times(|shards| - 1, top)
    ensures Times(|shards|, HandOut(rest, seconds, shards)[k].load) <= sum + Times(|shards| - 1, top)
    decreases |rest|
  {
    if rest != [] {
      var f, w := rest[0], Weight(seconds, rest[0]);
      var after := Place(shards, f, w);
      assert placed + rest == placed + [f] + rest[1..];
      PlaceRecorded(shards, placed, f, seconds, extra);
      if k == Lightest(shards) {
        ListSchedulingPlaced(shards, placed, f, rest[1..], seconds, extra, top, sum, after[k].load);
      }
      ListSchedulingStep(rest[1..], after, placed + [f], seconds, extra, top, sum, k);
    }
  }

  lemma ListSchedulingPlaced(shards: seq<Shard>, placed: seq<string>, f: string, rest: seq<string>, seconds: Durations,
      extra: real, top: real, sum: real, load: real)
    requires Recorded(shards, placed, seconds, extra) && ValidDurations(seconds) && Weight(seconds, f) <= top
    requires extra + SumBy(WeightIn(seconds), placed + [f] + rest) <= sum
    requires load == shards[Lightest(shards)].load + Weight(seconds, f)
    ensures Times(|shards|, load) <= sum + Times(|shards| - 1, top)
  {
    PrefixSum(WeightIn(seconds), placed, f, rest);
    PlacedLoad(shards, placed, Weight(seconds, f), seconds, extra, load, sum);
    TimesMonotone(|shards| - 1, Weight(seconds, f), top);
  }

  predicate Descending(order: seq<string>, seconds: Durations) {
    forall i, j :: 0 <= i < j < |order| ==> Weight(seconds, order[i]) >= Weight(seconds, order[j])
  }

  lemma OrderFacts(files: seq<string>, seconds: Durations)
    ensures multiset(Order(files, seconds)) == multiset(files)
    ensures Descending(Order(files, seconds), seconds)
  {
    HeaviestFirstIsTotalOrder(seconds);
    SortSorts(files, HeaviestFirst(seconds));
    var order := Order(files, seconds);
    forall i, j | 0 <= i < j < |order| ensures Weight(seconds, order[i]) >= Weight(seconds, order[j]) {
      assert HeaviestFirst(seconds)(order[i], order[j]);
    }
  }

  /** `m` bounds the load of every part of some assignment of the files. */
  predicate Allows(parts: seq<seq<string>>, order: seq<string>, seconds: Durations, extra: real, m: real) {
    && parts != [] && ValidDurations(seconds) && extra >= 0.0
    && multiset(Flatten(parts)) == multiset(order)
    && forall k :: 0 <= k < |parts| ==> LoadsUnder(parts, seconds, extra)[k] <= m
  }

  lemma PartFits(parts: seq<seq<string>>, order: seq<string>, seconds: Durations, extra: real, m: real, k: nat)
    requires Allows(parts, order, seconds, extra, m) && k < |parts|
    ensures 0.0 <= SumBy(WeightIn(seconds), parts[k]) <= m
    ensures forall f :: f in parts[k] ==> Weight(seconds, f) <= m
    ensures extra <= m
  {
    var w := WeightIn(seconds);
    assert LoadsUnder(parts, seconds, extra)[k] <= m && LoadsUnder(parts, seconds, extra)[0] <= m;
    SumByNonNegative(w, parts[0]);
    SumByNonNegative(w, parts[k]);
    forall f | f in parts[k] ensures Weight(seconds, f) <= m { assert w(f) <= SumBy(w, parts[k]); }
  }

  lemma FileFits(parts: seq<seq<string>>, order: seq<string>, seconds: Durations, extra: real, m: real, f: string)
    requires Allows(parts, order, seconds, extra, m) && f in order
    ensures Weight(seconds, f) <= m
  {
    assert f in multiset(Flatten(parts));
    FlattenMembers(parts, f);
    var k :| 0 <= k < |parts| && f in parts[k];
    PartFits(parts, order, seconds, extra, m, k);
  }

  lemma FilesFit(parts: seq<seq<string>>, order: seq<string>, seconds: Durations, extra: real, m: real)
    requires Allows(parts, order, seconds, extra, m)
    ensures forall f :: f in order ==> Weight(seconds, f) <= m
    ensures extra <= m
  {
    PartFits(parts, order, seconds, extra, m, 0);
    forall f | f in order ensures Weight(seconds, f) <= m { FileFits(parts, order, seconds, extra, m, f); }
  }

  lemma AllFit(parts: seq<seq<string>>, order: seq<string>, seconds: Durations, extra: real, m: real)
    requires Allows(parts, order, seconds, extra, m)
    ensures extra + SumBy(WeightIn(seconds), order) <= Times(|parts|, m)
  {
    LoadsTotal(order, parts, seconds, extra);
    TotalAtMost(LoadsUnder(parts, seconds, extra), m);
  }

  lemma GreedyScaled(order: seq<string>, seconds: Durations, extra: real, other: seq<seq<string>>, m: real, k: nat)
    requires Allows(other, order, seconds, extra, m) && k < |other|
    ensures Times(|other|, HandOut(order, seconds, EmptyShards(|other|, extra))[k].load) <= Times(|other|, m)
      + Times(|other| - 1, m)
  {
    FilesFit(other, order, seconds, extra, m);
    AllFit(other, order, seconds, extra, m);
    NothingRecorded(seconds, |other|, extra);
    StartWithin(|other|, extra, m, EmptyShards(|other|, extra)[k].load);
    assert [] + order == order;
    ListSchedulingStep(order, EmptyShards(|other|, extra), [], seconds, extra, m, Times(|other|, m), k);
  }

  lemma StartWithin(n: nat, extra: real, m: real, load: real)
    requires n > 0 && 0.0 <= extra <= m && (load == 0.0 || load == extra)
    ensures Times(n, load) <= Times(n, m) + Times(n - 1, m)
  {
    TimesMonotone(n, load, m);
    TimesMonotone(n - 1, 0.0, m);
  }

  lemma ReorderedAllows(parts: seq<seq<string>>, files: seq<string>, seconds: Durations, extra: real, m: real)
    requires Allows(parts, files, seconds, extra, m)
    ensures Allows(parts, Order(files, seconds), seconds, extra, m) && Descending(Order(files, seconds), seconds)
  {
    OrderFacts(files, seconds);
  }

  /**
   * Whatever bound `m` some assignment of the same files keeps on all its shards, n times the load of any shard of the
   * plan is at most 2n - 1 times m: the plan's heaviest shard is within 2 - 1/n of the best possible one.
   */
  lemma GreedyWithinTwo(files: seq<string>, n: nat, seconds: Durations, extra: real, other: seq<seq<string>>, m: real,
      k: nat)
    requires n == |other| && k < n && Allows(other, files, seconds, extra, m)
    ensures Times(n, ShardLoads(files, n, seconds, extra)[k]) <= Times(2 * n - 1, m)
  {
    ReorderedAllows(other, files, seconds, extra, m);
    GreedyScaled(Order(files, seconds), seconds, extra, other, m, k);
    TimesSplit(n, n - 1, m);
  }

  // ---- longest first: 4/3 - 1/(3n) ----

  /**
   * Every file is small (at most a third of the bound), or no heavier than the extra; without an extra any file will
   * do.
   */
  predicate Settled(files: seq<string>, seconds: Durations, extra: real, m: real) {
    forall f :: f in files ==> 3.0 * Weight(seconds, f) <= m || extra == 0.0 || extra >= Weight(seconds, f)
  }

  /**
   * Credits relative to a file of weight `v` and a bound `m` on every load: nothing for something lighter, one for
   * something at least as heavy, two when it leaves no room for another file of weight `v`.
   */
  function Worth(w: real, v: real, m: real): real {
    if w < v then 0.0 else if w > m - v then 2.0 else 1.0
  }

  function Credit(seconds: Durations, v: real, m: real): string -> real {
    f => Worth(Weight(seconds, f), v, m)
  }

  /** Within the bound there is room for at most two credits (when three files of weight `v` do not fit). */
  lemma CreditsFit(fs: seq<string>, seconds: Durations, v: real, m: real)
    requires ValidDurations(seconds) && 0.0 <= v <= m < 3.0 * v
    ensures var c, s := SumBy(Credit(seconds, v, m), fs), SumBy(WeightIn(seconds), fs);
      && s >= 0.0
      && (c == 0.0 || (c == 1.0 && s >= v) || (c == 2.0 && (s >= 2.0 * v || s > m - v)) || s > m)
  {
    if fs != [] {
      CreditsFit(fs[1..], seconds, v, m);
    }
  }

  /** The same with an extra that counts like a file, or does not count at all. */
  lemma CreditsFitFrom(fs: seq<string>, seconds: Durations, first: real, v: real, m: real)
    requires ValidDurations(seconds) && 0.0 <= v <= m < 3.0 * v && (first == 0.0 || first >= v)
    requires first + SumBy(WeightIn(seconds), fs) <= m
    ensures Worth(first, v, m) + SumBy(Credit(seconds, v, m), fs) <= 2.0
  {
    CreditsFit(fs, seconds, v, m);
  }

  /**
   * A shard with no room left for a file of weight `v`, holding only files at least that heavy, has earned two credits.
   */
  lemma CreditsEarned(fs: seq<string>, seconds: Durations, first: real, v: real, m: real)
    requires 0.0 < v <= m && (first == 0.0 || first >= v)
    requires forall f :: f in fs ==> Weight(seconds, f) >= v
    requires first + SumBy(WeightIn(seconds), fs) > m - v
    ensures Worth(first, v, m) + SumBy(Credit(seconds, v, m), fs) >= 2.0
  {
    var credit := Credit(seconds, v, m);
    if fs != [] {
      assert fs[0] in fs;
      assert SumBy(credit, fs) == credit(fs[0]) + SumBy(credit, fs[1..]);
      forall f | f in fs[1..] ensures credit(f) >= 1.0 { assert f in fs; }
      SumByNonNegative(credit, fs[1..]);
      if |fs| > 1 { assert fs[1..][0] in fs[1..]; }
    }
  }

  /** When every shard is full, each has earned two credits. */
  lemma CreditsHeld(shards: seq<Shard>, placed: seq<string>, seconds: Durations, extra: real, v: real, m: real)
    requires Recorded(shards, placed, seconds, extra) && 0.0 < v <= m && (extra == 0.0 || extra >= v)
    requires forall f :: f in placed ==> Weight(seconds, f) >= v
    requires shards[Lightest(shards)].load + v > m
    ensures Worth(extra, v, m) + SumBy(Credit(seconds, v, m), placed) >= Times(|shards|, 2.0)
  {
    var credit, held, first := Credit(seconds, v, m), FilesOf(shards), Worth(extra, v, m);
    forall k | 0 <= k < |shards| ensures SumsFrom(credit, held, first)[k] >= 2.0 {
      LightestOfIsLeast(shards, |shards|, k);
      HeldIsPlaced(shards, placed, seconds, extra, v, k);
      CreditsEarned(held[k], seconds, if k == 0 then extra else 0.0, v, m);
    }
    TotalAtLeast(SumsFrom(credit, held, first), 2.0);
    SumsTotal(credit, placed, held, first);
  }

  lemma HeldIsPlaced(shards: seq<Shard>, placed: seq<string>, seconds: Durations, extra: real, v: real, k: nat)
    requires Recorded(shards, placed, seconds, extra) && k < |shards|
    requires forall f :: f in placed ==> Weight(seconds, f) >= v
    ensures forall f :: f in FilesOf(shards)[k] ==> Weight(seconds, f) >= v
  {
    forall f | f in FilesOf(shards)[k] ensures Weight(seconds, f) >= v {
      FlattenMembers(FilesOf(shards), f);
      assert f in multiset(placed);
    }
  }

  lemma CreditsAllowed(order: seq<string>, seconds: Durations, other: seq<seq<string>>, extra: real, v: real, m: real)
    requires Allows(other, order, seconds, extra, m) && 0.0 < v <= m < 3.0 * v && (extra == 0.0 || extra >= v)
    ensures Worth(extra, v, m) + SumBy(Credit(seconds, v, m), order) <= Times(|other|, 2.0)
  {
    var credit, first := Credit(seconds, v, m), Worth(extra, v, m);
    forall k | 0 <= k < |other| ensures SumsFrom(credit, other, first)[k] <= 2.0 {
      assert LoadsUnder(other, seconds, extra)[k] <= m;
      CreditsFitFrom(other[k], seconds, if k == 0 then extra else 0.0, v, m);
    }
    TotalAtMost(SumsFrom(credit, other, first), 2.0);
    SumsTotal(credit, order, other, first);
  }

  /**
   * The shards after placing `placed`, with `f` next and `rest` to follow, in an order that `other` handles within `m`.
   */
  predicate Pending(shards: seq<Shard>, placed: seq<string>, f: string, rest: seq<string>, seconds: Durations,
      extra: real, other: seq<seq<string>>, m: real) {
    && Recorded(shards, placed, seconds, extra) && |shards| == |other|
    && Allows(other, placed + [f] + rest, seconds, extra, m)
    && forall x :: x in placed ==> Weight(seconds, x) >= Weight(seconds, f)
  }

  /** While files heavier than a third of the bound are handed out, there is always room for the next one. */
  lemma RoomForLarge(shards: seq<Shard>, placed: seq<string>, f: string, rest: seq<string>, seconds: Durations,
      extra: real, other: seq<seq<string>>, m: real)
    requires Pending(shards, placed, f, rest, seconds, extra, other, m) && m < 3.0 * Weight(seconds, f)
    requires extra == 0.0 || extra >= Weight(seconds, f)
    ensures shards[Lightest(shards)].load + Weight(seconds, f) <= m
  {
    var v, order := Weight(seconds, f), placed + [f] + rest;
    FileFits(other, order, seconds, extra, m, f);
    if shards[Lightest(shards)].load + v > m {
      CreditsHeld(shards, placed, seconds, extra, v, m);
      CreditsAllowed(order, seconds, other, extra, v, m);
      PrefixSum(Credit(seconds, v, m), placed, f, rest);
      assert false;
    }
  }

  /** How far a load exceeds 4/3 - 1/(3n) times m, scaled by 3n. */
  function Excess(n: nat, load: real, m: real): real
    requires n > 0
  {
    3.0 * Times(n, load) - 3.0 * Times(n, m) - Times(n - 1, m)
  }

  lemma ExcessInTerms(n: nat, load: real, m: real)
    requires n > 0
    ensures Excess(n, load, m) == Times(3 * n, load) - Times(4 * n - 1, m)
  {
    TimesTriple(n, load);
    TimesTriple(n, m);
    TimesSplit(3 * n, n - 1, m);
  }

  lemma SmallFileArithmetic(n: nat, after: real, v: real, m: real)
    requires n > 0 && 3.0 * v <= m
    requires Times(n, after) <= Times(n, m) + Times(n - 1, v)
    ensures Excess(n, after, m) <= 0.0
  {
    var twice, thrice := v + v, v + v + v;
    TimesOfSum(n - 1, v, v, twice);
    TimesOfSum(n - 1, twice, v, thrice);
    TimesMonotone(n - 1, thrice, m);
  }

  lemma LargeFileArithmetic(n: nat, after: real, m: real)
    requires n > 0 && after <= m && 0.0 <= m
    ensures Excess(n, after, m) <= 0.0
  {
    TimesMonotone(n, after, m);
    TimesMonotone(n - 1, 0.0, m);
  }

  lemma PrefixFits(placed: seq<string>, f: string, rest: seq<string>, seconds: Durations, extra: real,
      other: seq<seq<string>>, m: real)
    requires Allows(other, placed + [f] + rest, seconds, extra, m)
    ensures extra + SumBy(WeightIn(seconds), placed) + Weight(seconds, f) <= Times(|other|, m)
  {
    var w := WeightIn(seconds);
    AllFit(other, placed + [f] + rest, seconds, extra, m);
    PrefixSum(w, placed, f, rest);
    assert w(f) == Weight(seconds, f);
  }

  lemma LongestFirstPlaced(shards: seq<Shard>, placed: seq<string>, f: string, rest: seq<string>, seconds: Durations,
      extra: real, other: seq<seq<string>>, m: real, load: real)
    requires Pending(shards, placed, f, rest, seconds, extra, other, m)
      && load == shards[Lightest(shards)].load + Weight(seconds, f)
    requires 3.0 * Weight(seconds, f) <= m || extra == 0.0 || extra >= Weight(seconds, f)
    ensures Excess(|shards|, load, m) <= 0.0
  {
    hide Recorded, Excess, Lightest, Times;
    FileFits(other, placed + [f] + rest, seconds, extra, m, f);
    if m < 3.0 * Weight(seconds, f) {
      RoomForLarge(shards, placed, f, rest, seconds, extra, other, m);
      LargeFileArithmetic(|shards|, load, m);
    } else {
      PrefixFits(placed, f, rest, seconds, extra, other, m);
      PlacedLoad(shards, placed, Weight(seconds, f), seconds, extra, load, Times(|shards|, m));
      SmallFileArithmetic(|shards|, load, Weight(seconds, f), m);
    }
  }

  lemma DescendingSplits(placed: seq<string>, f: string, rest: seq<string>, seconds: Durations)
    requires Descending(placed + [f] + rest, seconds)
    ensures forall x :: x in placed ==> Weight(seconds, x) >= Weight(seconds, f)
  {
    forall x | x in placed ensures Weight(seconds, x) >= Weight(seconds, f) {
      var order := placed + [f] + rest;
      var i :| 0 <= i < |placed| && placed[i] == x;
      assert order[i] == x && order[|placed|] == f;
    }
  }

  lemma LongestFirstStep(rest: seq<string>, shards: seq<Shard>, placed: seq<string>, seconds: Durations, extra: real,
                         other: seq<seq<string>>, m: real, k: nat)
    requires Recorded(shards, placed, seconds, extra) && k < |shards| == |other|
    requires Allows(other, placed + rest, seconds, extra, m) && Descending(placed + rest, seconds)
      && Settled(rest, seconds, extra, m)
    requires Excess(|shards|, shards[k].load, m) <= 0.0
    ensures Excess(|shards|, HandOut(rest, seconds, shards)[k].load, m) <= 0.0
    decreases |rest|
  {
    if rest != [] {
      var f, w := rest[0], Weight(seconds, rest[0]);
      assert placed + rest == placed + [f] + rest[1..] && f in rest;
      DescendingSplits(placed, f, rest[1..], seconds);
      var after := Place(shards, f, w);
      if k == Lightest(shards) {
        LongestFirstPlaced(shards, placed, f, rest[1..], seconds, extra, other, m, after[k].load);
      }
      PlaceRecorded(shards, placed, f, seconds, extra);
      LongestFirstStep(rest[1..], after, placed + [f], seconds, extra, other, m, k);
    }
  }

  /**
   * Graham's bound for longest first: within 4/3 - 1/(3n) of the best. It holds for the nightly shards (no extra), and
   * with an extra on shard 1 as long as every file is at most a third of the bound or no heavier than the extra.
   */
  lemma LongestFirstWithinFourThirds(files: seq<string>, n: nat, seconds: Durations, extra: real,
      other: seq<seq<string>>, m: real, k: nat)
    requires n == |other| && k < n && Allows(other, files, seconds, extra, m) && Settled(files, seconds, extra, m)
    ensures Times(3 * n, ShardLoads(files, n, seconds, extra)[k]) <= Times(4 * n - 1, m)
  {
    var order, shards := Order(files, seconds), EmptyShards(n, extra);
    ReorderedAllows(other, files, seconds, extra, m);
    SameMembers(order, files);
    NothingRecorded(seconds, n, extra);
    PartFits(other, order, seconds, extra, m, 0);
    LargeFileArithmetic(n, shards[k].load, m);
    assert [] + order == order;
    LongestFirstStep(order, shards, [], seconds, extra, other, m, k);
    ExcessInTerms(n, ShardLoads(files, n, seconds, extra)[k], m);
  }

  lemma TimesCancels(n: nat, x: real, y: real)
    requires n > 0 && Times(n, x) <= Times(n, y)
    ensures x <= y
  {
    TimesIsProduct(n, x);
    TimesIsProduct(n, y);
  }

  /**
   * What the table of durations alone tells: if no file takes more than a third of an even share of everything (or none
   * of those that do is heavier than the extra), the plan is within 4/3 - 1/(3n) of every other assignment.
   */
  lemma FourThirdsByTheTable(files: seq<string>, n: nat, seconds: Durations, extra: real, other: seq<seq<string>>,
      m: real, k: nat)
    requires n == |other| && k < n && Allows(other, files, seconds, extra, m)
    requires forall f :: f in files ==>
      Times(n, 3.0 * Weight(seconds, f)) <= extra + SumBy(WeightIn(seconds), files) || extra >= Weight(seconds, f)
    ensures Times(3 * n, ShardLoads(files, n, seconds, extra)[k]) <= Times(4 * n - 1, m)
  {
    hide Allows, ShardLoads;
    AllFit(other, files, seconds, extra, m);
    forall f | f in files ensures 3.0 * Weight(seconds, f) <= m || extra >= Weight(seconds, f) {
      var thrice := 3.0 * Weight(seconds, f);
      if Times(n, thrice) <= Times(n, m) { TimesCancels(n, thrice, m); }
    }
    LongestFirstWithinFourThirds(files, n, seconds, extra, other, m, k);
  }

  // ---- a file between a third of the bound and the extra's weight breaks it ----

  const UNEVEN: Durations := map["a" := 60.0, "b" := 40.0, "c" := 40.0]

  lemma UnevenOrder()
    ensures Order(["a", "b", "c"], UNEVEN) == ["a", "b", "c"]
  {
    var leq := HeaviestFirst(UNEVEN);
    assert Order(["c"], UNEVEN) == ["c"];
    assert Sort(["b", "c"], leq) == ["b", "c"] by { assert ["b", "c"][1..] == ["c"]; }
    assert ["a", "b", "c"][1..] == ["b", "c"];
  }

  lemma UnevenPlan()
    ensures ShardLoads(["a", "b", "c"], 2, UNEVEN, SHARD1_EXTRA) == [100.0, 60.0]
  {
    UnevenOrder();
    var s0 := EmptyShards(2, SHARD1_EXTRA);
    assert s0 == [Shard(20.0, []), Shard(0.0, [])];
    var s1 := [Shard(20.0, []), Shard(60.0, ["a"])];
    var s2 := [Shard(60.0, ["b"]), Shard(60.0, ["a"])];
    var s3 := [Shard(100.0, ["b", "c"]), Shard(60.0, ["a"])];
    assert Place(s0, "a", 60.0) == s1 by { assert Lightest(s0) == 1; assert [] + ["a"] == ["a"]; }
    assert Place(s1, "b", 40.0) == s2 by { assert Lightest(s1) == 0; assert [] + ["b"] == ["b"]; }
    assert Place(s2, "c", 40.0) == s3 by { assert Lightest(s2) == 0; }
    assert HandOut(["c"], UNEVEN, s2) == s3 by { assert HandOut(["c"][1..], UNEVEN, s3) == s3; }
    assert HandOut(["b", "c"], UNEVEN, s1) == s3 by { assert ["b", "c"][1..] == ["c"]; }
    assert HandOut(["a", "b", "c"], UNEVEN, s0) == s3 by { assert ["a", "b", "c"][1..] == ["b", "c"]; }
  }

  lemma UnevenLoads()
    ensures LoadsUnder([["a"], ["b", "c"]], UNEVEN, SHARD1_EXTRA) == [80.0, 80.0]
  {
    assert ["b", "c"][1..] == ["c"] && ["c"][1..] == [] && ["a"][1..] == [];
    assert SumBy(WeightIn(UNEVEN), ["c"]) == 40.0;
    assert SumBy(WeightIn(UNEVEN), ["b", "c"]) == 80.0;
    assert SumBy(WeightIn(UNEVEN), ["a"]) == 60.0;
  }

  lemma UnevenSplit()
    ensures Allows([["a"], ["b", "c"]], ["a", "b", "c"], UNEVEN, SHARD1_EXTRA, 80.0)
  {
    hide LoadsUnder;
    UnevenLoads();
    assert Flatten([["a"], ["b", "c"]]) == ["a", "b", "c"] by { assert [["a"], ["b", "c"]][1..] == [["b", "c"]]; }
  }

  /** With shard 1's head start and files of 60, 40 and 40 seconds on two shards the sharper bound is lost. */
  lemma ExtraBreaksFourThirds()
    ensures Allows([["a"], ["b", "c"]], ["a", "b", "c"], UNEVEN, SHARD1_EXTRA, 80.0)
    ensures Times(6, ShardLoads(["a", "b", "c"], 2, UNEVEN, SHARD1_EXTRA)[0]) > Times(7, 80.0)
  {
    UnevenSplit();
    UnevenPlan();
    TimesIsProduct(6, ShardLoads(["a", "b", "c"], 2, UNEVEN, SHARD1_EXTRA)[0]);
    TimesIsProduct(7, 80.0);
  }
}
