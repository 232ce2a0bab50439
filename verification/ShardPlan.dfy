/** scripts/ci-test-shard.ts: how test files are handed out to the CI shards. */
module ShardPlan {
  import opened Sequences
  import opened Text

  type Durations = map<string, real>

  const LIGHT := 1.0
  const SHARD1_EXTRA := 20.0

  /** What `parseDurations` lets through. */
  predicate ValidDurations(seconds: Durations) {
    forall f :: f in seconds ==> seconds[f] >= 0.0
  }

  function Weight(seconds: Durations, f: string): (w: real)
    ensures ValidDurations(seconds) ==> w >= 0.0
    ensures f !in seconds ==> w == 1.0
  {
    if f in seconds then seconds[f] else LIGHT
  }

  function WeightIn(seconds: Durations): string -> real {
    f => Weight(seconds, f)
  }

  function SumBy(w: string -> real, fs: seq<string>): real {
    if fs == [] then 0.0 else w(fs[0]) + SumBy(w, fs[1..])
  }

  /** The order the files are handed out in: heaviest first, equal weights by path. */
  predicate Precedes(seconds: Durations, a: string, b: string) {
    Weight(seconds, a) > Weight(seconds, b) || (Weight(seconds, a) == Weight(seconds, b) && Leq(a, b))
  }

  function HeaviestFirst(seconds: Durations): (string, string) -> bool {
    (a, b) => Precedes(seconds, a, b)
  }

  lemma HeaviestFirstIsTotalOrder(seconds: Durations)
    ensures TotalOrder(HeaviestFirst(seconds))
  {
    LeqIsTotalOrder();
    var leq := HeaviestFirst(seconds);
    forall a, b ensures leq(a, b) || leq(b, a) { LeqTotal(a, b); }
    forall a, b | leq(a, b) && leq(b, a) ensures a == b { LeqAntisymmetric(a, b); }
    forall a, b, c | leq(a, b) && leq(b, c) ensures leq(a, c) {
      if Leq(a, b) && Leq(b, c) { LeqTransitive(a, b, c); }
    }
  }

  datatype Shard = Shard(load: real, files: seq<string>)

  /** The lightest of the first m shards; the first of them when several are equally light. */
  function LightestOf(shards: seq<Shard>, m: nat): (k: nat)
    requires 0 < m <= |shards|
    ensures k < m
  {
    if m == 1 then 0
    else
      var k := LightestOf(shards, m - 1);
      if shards[m - 1].load < shards[k].load then m - 1 else k
  }

  function Lightest(shards: seq<Shard>): (k: nat)
    requires shards != []
    ensures k < |shards|
  {
    LightestOf(shards, |shards|)
  }

  lemma {:induction false} LightestOfIsLeast(shards: seq<Shard>, m: nat, i: nat)
    requires i < m <= |shards|
    ensures shards[LightestOf(shards, m)].load <= shards[i].load
    ensures i < LightestOf(shards, m) ==> shards[LightestOf(shards, m)].load < shards[i].load
  {
    if m > 1 {
      LightestOfIsLeast(shards, m - 1, if i < m - 1 then i else LightestOf(shards, m - 1));
    }
  }

  function EmptyShards(n: nat, extra: real): seq<Shard> {
    seq(n, i => Shard(if i == 0 then extra else 0.0, []))
  }

  function Place(shards: seq<Shard>, f: string, w: real): seq<Shard>
    requires shards != []
  {
    var k := Lightest(shards);
    shards[k := Shard(shards[k].load + w, shards[k].files + [f])]
  }

  /** Handing out `order` one file at a time, each to the shard that is lightest by then. */
  function HandOut(order: seq<string>, seconds: Durations, shards: seq<Shard>): (r: seq<Shard>)
    requires shards != []
    ensures |r| == |shards|
    decreases |order|
  {
    if order == [] then shards
    else HandOut(order[1..], seconds, Place(shards, order[0], Weight(seconds, order[0])))
  }

  function Order(files: seq<string>, seconds: Durations): seq<string> {
    Sort(files, HeaviestFirst(seconds))
  }

  function Assigned(files: seq<string>, n: nat, seconds: Durations, extra: real): (r: seq<Shard>)
    requires n > 0
    ensures |r| == n
  {
    HandOut(Order(files, seconds), seconds, EmptyShards(n, extra))
  }

  method FindLightest(shards: array<Shard>) returns (k: nat)
    requires shards.Length > 0
    ensures k == Lightest(shards[..])
  {
    k := 0;
    for i := 1 to shards.Length
      invariant k < shards.Length && k == LightestOf(shards[..], i)
    {
      if shards[i].load < shards[k].load { k := i; }
    }
  }

  /** `assign`: the loop over the ordered files, updating the shards in place. */
  method Assign(files: seq<string>, n: nat, seconds: Durations, extra: real) returns (shards: array<Shard>)
    requires n > 0
    ensures fresh(shards) && shards[..] == Assigned(files, n, seconds, extra)
  {
    shards := new Shard[n](i => Shard(if i == 0 then extra else 0.0, []));
    assert shards[..] == EmptyShards(n, extra);
    var order := Order(files, seconds);
    for j := 0 to |order|
      invariant HandOut(order[j..], seconds, shards[..]) == Assigned(files, n, seconds, extra)
    {
      var k := FindLightest(shards);
      ghost var before := shards[..];
      shards[k] := Shard(shards[k].load + Weight(seconds, order[j]), shards[k].files + [order[j]]);
      assert shards[..] == Place(before, order[j], Weight(seconds, order[j]));
      assert order[j..][1..] == order[j + 1..];
    }
  }

  function FilesOf(shards: seq<Shard>): (r: seq<seq<string>>)
    ensures |r| == |shards| && forall k :: 0 <= k < |r| ==> r[k] == shards[k].files
  {
    seq(|shards|, k requires 0 <= k < |shards| => shards[k].files)
  }

  function PlanShards(files: seq<string>, n: nat, seconds: Durations, extra: real): (r: seq<seq<string>>)
    requires n > 0
    ensures |r| == n
  {
    var shards := Assigned(files, n, seconds, extra);
    seq(n, k requires 0 <= k < n => Sorted(shards[k].files))
  }

  function ShardLoads(files: seq<string>, n: nat, seconds: Durations, extra: real): (r: seq<real>)
    requires n > 0
    ensures |r| == n
  {
    var shards := Assigned(files, n, seconds, extra);
    seq(n, k requires 0 <= k < n => shards[k].load)
  }

  function WithoutSlow(files: seq<string>, slow: seq<string>): seq<string> {
    Filter(files, f => f !in slow)
  }

  lemma OffTheSlowList(files: seq<string>, slow: seq<string>)
    ensures forall f :: f in WithoutSlow(files, slow) <==> f in files && f !in slow
  {}

  // ---- what a plan is: a partition of the files, the same for every listing of them ----

  lemma PlaceKeeps(shards: seq<Shard>, f: string, w: real)
    requires shards != []
    ensures multiset(Flatten(FilesOf(Place(shards, f, w)))) == multiset(Flatten(FilesOf(shards))) + multiset{f}
  {
    var k := Lightest(shards);
    FlattenUpdate(FilesOf(shards), k, f);
    assert FilesOf(Place(shards, f, w)) == FilesOf(shards)[k := FilesOf(shards)[k] + [f]];
  }

  lemma HandOutKeeps(order: seq<string>, seconds: Durations, shards: seq<Shard>)
    requires shards != []
    ensures multiset(Flatten(FilesOf(HandOut(order, seconds, shards)))) ==
      multiset(Flatten(FilesOf(shards))) + multiset(order)
    decreases |order|
  {
    if order != [] {
      var w := Weight(seconds, order[0]);
      PlaceKeeps(shards, order[0], w);
      HandOutKeeps(order[1..], seconds, Place(shards, order[0], w));
      assert order == [order[0]] + order[1..];
    }
  }

  lemma FlattenOfNothing(xss: seq<seq<string>>)
    requires forall k :: 0 <= k < |xss| ==> xss[k] == []
    ensures Flatten(xss) == []
  {}

  lemma AssignedPartition(files: seq<string>, n: nat, seconds: Durations, extra: real)
    requires n > 0
    ensures multiset(Flatten(FilesOf(Assigned(files, n, seconds, extra)))) == multiset(files)
  {
    HeaviestFirstIsTotalOrder(seconds);
    SortSorts(files, HeaviestFirst(seconds));
    HandOutKeeps(Order(files, seconds), seconds, EmptyShards(n, extra));
    FlattenOfNothing(FilesOf(EmptyShards(n, extra)));
  }

  /** Every file is on exactly as many shards as it is listed, and each shard's list is in path order. */
  lemma PlanIsPartition(files: seq<string>, n: nat, seconds: Durations, extra: real)
    requires n > 0
    ensures multiset(Flatten(PlanShards(files, n, seconds, extra))) == multiset(files)
    ensures forall k :: 0 <= k < n ==> SortedBy(PlanShards(files, n, seconds, extra)[k], Leq)
  {
    var shards, plan := Assigned(files, n, seconds, extra), PlanShards(files, n, seconds, extra);
    forall k | 0 <= k < n ensures multiset(plan[k]) == multiset(FilesOf(shards)[k]) && SortedBy(plan[k], Leq) {
      SortedSorts(shards[k].files);
    }
    FlattenPermuted(plan, FilesOf(shards));
    AssignedPartition(files, n, seconds, extra);
  }

  /** The listing order of the files makes no difference: no tie is left to chance. */
  lemma PlanIsCanonical(files: seq<string>, listedOtherwise: seq<string>, n: nat, seconds: Durations, extra: real)
    requires n > 0 && multiset(files) == multiset(listedOtherwise)
    ensures PlanShards(files, n, seconds, extra) == PlanShards(listedOtherwise, n, seconds, extra)
    ensures ShardLoads(files, n, seconds, extra) == ShardLoads(listedOtherwise, n, seconds, extra)
  {
    HeaviestFirstIsTotalOrder(seconds);
    SortCanonical(files, listedOtherwise, HeaviestFirst(seconds));
  }

  /** For distinct files the shards are disjoint and duplicate-free. */
  lemma PlanIsDisjoint(files: seq<string>, n: nat, seconds: Durations, extra: real)
    requires n > 0 && Distinct(files)
    ensures var plan := PlanShards(files, n, seconds, extra);
      && (forall k :: 0 <= k < n ==> Distinct(plan[k]))
      && (forall j, k :: 0 <= j < k < n ==> forall f :: f in plan[j] ==> f !in plan[k])
  {
    PlanIsPartition(files, n, seconds, extra);
    PermutationDistinct(files, Flatten(PlanShards(files, n, seconds, extra)));
    FlattenDistinct(PlanShards(files, n, seconds, extra));
  }
}
