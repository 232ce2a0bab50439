/** scripts/ci-test-shard.ts, the gate: reading the shard logs back against the plan. */
module ShardVerify {
  import opened Sequences
  import opened Text
  import opened ShardPlan
  import opened ShardLog

  const SLOW_MAX_FILES := 20
  const SLOW_MAX_SHARE := 0.3

  datatype ShardExpect = ShardExpect(n: nat, head: string, bunVersion: string, files: seq<string>, slow: seq<string>,
    seconds: Durations)

  datatype Failure =
    | SlowMissing(files: seq<string>)
    | SlowRepeated(files: seq<string>)
    | SlowTooMany(count: nat)
    | SlowTooHeavy
    | ExtraArtifacts(names: set<string>)
    | MissingArtifact(name: string)
    | InLog(name: string, problem: Problem)

  // ---- the slow list ----

  /** The share of the whole running time that the listed files take; no share when nothing takes any time. */
  predicate TooHeavy(slow: seq<string>, files: seq<string>, seconds: Durations) {
    var total := SumBy(WeightIn(seconds), files);
    total > 0.0 && SumBy(WeightIn(seconds), Filter(Dedup(slow), f => f in files)) / total > SLOW_MAX_SHARE
  }

  function SlowProblems(slow: seq<string>, files: seq<string>, seconds: Durations): seq<Failure> {
    var seen, repeated := Dedup(slow), Dedup(Repeats(slow));
    var missing := Filter(seen, f => f !in files);
    (if missing != [] then [SlowMissing(missing)] else [])
    + (if repeated != [] then [SlowRepeated(repeated)] else [])
    + (if |seen| > SLOW_MAX_FILES then [SlowTooMany(|seen|)] else [])
    + (if TooHeavy(slow, files, seconds) then [SlowTooHeavy] else [])
  }

  lemma SlowStep(done: seq<string>, f: string)
    ensures Dedup(done + [f]) == if f in done then Dedup(done) else Dedup(done) + [f]
    ensures Repeats(done + [f]) == if f in done then Repeats(done) + [f] else Repeats(done)
  {
    assert (done + [f])[..|done|] == done;
    RepeatsAfterSnoc(done, f, {});
  }

  /** One pass over the list fills the set of files seen and keeps what it meets again. */
  method ReadSlowList(slow: seq<string>) returns (seen: seq<string>, again: seq<string>)
    ensures seen == Dedup(slow) && again == Repeats(slow)
  {
    seen, again := [], [];
    assert Dedup<string>([]) == [] && Repeats<string>([]) == [];
    hide Repeats, Dedup;
    for i := 0 to |slow|
      invariant seen == Dedup(slow[..i]) && again == Repeats(slow[..i])
    {
      SlowStep(slow[..i], slow[i]);
      assert slow[..i + 1] == slow[..i] + [slow[i]];
      if slow[i] in seen { again := again + [slow[i]]; } else { seen := seen + [slow[i]]; }
    }
    assert slow[..|slow|] == slow;
  }

  /** `slowProblems` as written. */
  method CheckSlowList(slow: seq<string>, files: seq<string>, seconds: Durations) returns (failures: seq<Failure>)
    ensures failures == SlowProblems(slow, files, seconds)
  {
    var seen, again := ReadSlowList(slow);
    hide TooHeavy, Repeats, Dedup, Filter;
    var repeated, missing := Dedup(again), Filter(seen, f => f !in files);
    failures := if missing != [] then [SlowMissing(missing)] else [];
    failures := failures + if repeated != [] then [SlowRepeated(repeated)] else [];
    failures := failures + if |seen| > SLOW_MAX_FILES then [SlowTooMany(|seen|)] else [];
    failures := failures + if TooHeavy(slow, files, seconds) then [SlowTooHeavy] else [];
  }

  /** Known files only, none twice, few and light enough. */
  predicate CleanSlowList(slow: seq<string>, files: seq<string>, seconds: Durations) {
    && (forall f :: f in slow ==> f in files)
    && Distinct(slow) && |slow| <= SLOW_MAX_FILES
    && !TooHeavy(slow, files, seconds)
  }

  /** At most 20 files, taking at most three tenths of the time that all take, if that is any. */
  lemma CleanSlowListSays(slow: seq<string>, files: seq<string>, seconds: Durations)
    ensures var time := (fs: seq<string>) => SumBy(WeightIn(seconds), fs);
      CleanSlowList(slow, files, seconds) <==>
        && (forall f :: f in slow ==> f in files) && Distinct(slow) && |slow| <= 20
        && (time(files) > 0.0 ==> 10.0 * time(Filter(Dedup(slow), f => f in files)) <= 3.0 * time(files))
  {
    hide SumBy, WeightIn, Distinct, Dedup, Filter;
  }

  lemma NoSlowProblems(slow: seq<string>, files: seq<string>, seconds: Durations)
    ensures SlowProblems(slow, files, seconds) == [] <==> CleanSlowList(slow, files, seconds)
  {
    NoRepeats(slow);
    var missing, repeated := Filter(Dedup(slow), f => f !in files), Dedup(Repeats(slow));
    if missing != [] { assert missing[0] in missing; } else {
      forall f | f in slow ensures f in files { assert f in missing <==> f in slow && f !in files; }
    }
    if Repeats(slow) != [] { assert Repeats(slow)[0] in repeated; } else { DedupDistinct(slow); }
  }

  // ---- one log ----

  const META: seq<string> := ["shard=", "head=", "discovered=", "bun test v"]

  function HeaderRows(k: nat, want: ShardExpect): seq<string> {
    ["shard=" + Decimal(k) + "/" + Decimal(want.n), "head=" + want.head, "discovered=" + Decimal(|want.files|)]
  }

  function VersionRow(bunVersion: string): string {
    "bun test v" + bunVersion + " "
  }

  function HeaderProblems(lines: seq<string>, rows: seq<string>, m: nat): seq<Problem>
    requires m <= |rows|
  {
    if m == 0 then []
    else
      HeaderProblems(lines, rows, m - 1)
      + if RowOf(lines, m - 1) == Some(rows[m - 1]) then [] else [WrongRow(m, rows[m - 1], RowOf(lines, m - 1))]
  }

  function MarkerProblems(lines: seq<string>, m: nat): seq<Problem>
    requires m <= |META|
  {
    if m == 0 then []
    else
      MarkerProblems(lines, m - 1)
      + if RowsWith(lines, META[m - 1]) == [m] then [] else [MarkerRows(META[m - 1], RowsWith(lines, META[m - 1]))]
  }

  function CheckShard(log: string, k: nat, want: ShardExpect, plan: seq<string>): seq<Problem> {
    var lines := Lines(log);
    HeaderProblems(lines, HeaderRows(k, want), 3)
    + (if |lines| > 3 && VersionRow(want.bunVersion) <= lines[3] then []
      else [WrongRow(4, VersionRow(want.bunVersion), RowOf(lines, 3))])
    + MarkerProblems(lines, 4)
    + RanProblems(Ran(lines), plan)
  }

  method CheckHeader(lines: seq<string>, rows: seq<string>) returns (errs: seq<Problem>)
    ensures errs == HeaderProblems(lines, rows, |rows|)
  {
    errs := [];
    for i := 0 to |rows|
      invariant errs == HeaderProblems(lines, rows, i)
    {
      if RowOf(lines, i) != Some(rows[i]) { errs := errs + [WrongRow(i + 1, rows[i], RowOf(lines, i))]; }
    }
  }

  method CheckMarkers(lines: seq<string>) returns (errs: seq<Problem>)
    ensures errs == MarkerProblems(lines, |META|)
  {
    errs := [];
    for i := 0 to |META|
      invariant errs == MarkerProblems(lines, i)
    {
      var at := RowsWith(lines, META[i]);
      if at != [i + 1] { errs := errs + [MarkerRows(META[i], at)]; }
    }
  }

  /** `checkShard`, pushing onto `errs` as it goes. */
  method CheckShardLog(log: string, k: nat, want: ShardExpect, plan: seq<string>) returns (errs: seq<Problem>)
    ensures errs == CheckShard(log, k, want, plan)
  {
    var lines := Lines(log);
    errs := CheckHeader(lines, HeaderRows(k, want));
    if !(|lines| > 3 && VersionRow(want.bunVersion) <= lines[3]) {
      errs := errs + [WrongRow(4, VersionRow(want.bunVersion), RowOf(lines, 3))];
    }
    var markers := CheckMarkers(lines);
    var files := CheckRan(lines, plan);
    errs := errs + markers + files;
  }

  /** The four header rows, each once and in its place, and group lines for exactly the planned files. */
  predicate LogMatches(lines: seq<string>, k: nat, want: ShardExpect, plan: seq<string>) {
    && |lines| > 3
    && lines[..3] == HeaderRows(k, want)
    && VersionRow(want.bunVersion) <= lines[3]
    && (forall i :: 0 <= i < 4 ==> OnlyAt(lines, META[i], i + 1))
    && RanExactly(Ran(lines), plan)
  }

  lemma NoHeaderProblems(lines: seq<string>, rows: seq<string>, m: nat)
    requires m <= |rows|
    ensures HeaderProblems(lines, rows, m) == [] <==> forall i :: 0 <= i < m ==> RowOf(lines, i) == Some(rows[i])
  {}

  lemma NoMarkerProblems(lines: seq<string>, m: nat)
    requires m <= |META|
    ensures MarkerProblems(lines, m) == [] <==> forall i :: 0 <= i < m ==> OnlyAt(lines, META[i], i + 1)
  {
    if m > 0 {
      NoMarkerProblems(lines, m - 1);
      RowsWithOnlyAt(lines, META[m - 1], m);
    }
  }

  lemma NoLogProblems(log: string, k: nat, want: ShardExpect, plan: seq<string>)
    ensures CheckShard(log, k, want, plan) == [] <==> LogMatches(Lines(log), k, want, plan)
  {
    var lines, rows := Lines(log), HeaderRows(k, want);
    NoHeaderProblems(lines, rows, 3);
    NoMarkerProblems(lines, 4);
    NoRanProblems(Ran(lines), plan);
    if LogMatches(lines, k, want, plan) {
      forall i | 0 <= i < 3 ensures RowOf(lines, i) == Some(rows[i]) { assert lines[..3][i] == rows[i]; }
    }
    if CheckShard(log, k, want, plan) == [] {
      assert forall i :: 0 <= i < 3 ==> RowOf(lines, i) == Some(rows[i]);
      assert |lines| > 3 ==> lines[..3] == rows;
    }
  }

  /**
   * A log that matches names in its first rows which shard of how many it is, which commit, how many files there are
   * and the version of bun; each of these rows stands where it stands and nowhere else.
   */
  lemma MatchingLogSays(lines: seq<string>, k: nat, want: ShardExpect, plan: seq<string>)
    ensures LogMatches(lines, k, want, plan) <==>
      && |lines| > 3
      && lines[0] == "shard=" + Decimal(k) + "/" + Decimal(want.n) && lines[1] == "head=" + want.head
      && lines[2] == "discovered=" + Decimal(|want.files|) && "bun test v" + want.bunVersion + " " <= lines[3]
      && OnlyAt(lines, "shard=", 1) && OnlyAt(lines, "head=", 2) && OnlyAt(lines, "discovered=", 3)
      && OnlyAt(lines, "bun test v", 4)
      && RanExactly(Ran(lines), plan)
  {
    if |lines| > 3 { FirstRows(lines, HeaderRows(k, want)); }
    MarkersInPlace(lines);
    hide RanExactly, OnlyAt, Ran, Decimal, META;
  }

  lemma FirstRows(lines: seq<string>, rows: seq<string>)
    requires |lines| > 3 && |rows| == 3
    ensures lines[..3] == rows <==> lines[0] == rows[0] && lines[1] == rows[1] && lines[2] == rows[2]
  {
    assert lines[..3] == [lines[0], lines[1], lines[2]];
    assert rows == [rows[0], rows[1], rows[2]];
  }

  lemma MarkersInPlace(lines: seq<string>)
    ensures (forall i :: 0 <= i < 4 ==> OnlyAt(lines, META[i], i + 1)) <==>
      && OnlyAt(lines, "shard=", 1) && OnlyAt(lines, "head=", 2) && OnlyAt(lines, "discovered=", 3)
      && OnlyAt(lines, "bun test v", 4)
  {
    hide OnlyAt;
    assert META[0] == "shard=" && META[1] == "head=" && META[2] == "discovered=" && META[3] == "bun test v";
  }

  // ---- all logs ----

  function ShardName(k: nat): string {
    "test-shard-" + Decimal(k)
  }

  lemma ShardNameInjective(j: nat, k: nat)
    requires ShardName(j) == ShardName(k)
    ensures j == k
  {
    assert ShardName(j)[11..] == Decimal(j) && ShardName(k)[11..] == Decimal(k);
    DecimalInjective(j, k);
  }

  predicate IsShardName(name: string, n: nat) {
    exists k :: 1 <= k <= n && name == ShardName(k)
  }

  function PlanFor(want: ShardExpect): (r: seq<seq<string>>)
    requires want.n > 0
    ensures |r| == want.n
  {
    PlanShards(WithoutSlow(want.files, want.slow), want.n, want.seconds, SHARD1_EXTRA)
  }

  function Named(name: string, problems: seq<Problem>): (r: seq<Failure>)
    ensures |r| == |problems| && forall i :: 0 <= i < |r| ==> r[i] == InLog(name, problems[i])
  {
    seq(|problems|, i requires 0 <= i < |problems| => InLog(name, problems[i]))
  }

  function OneShard(logs: map<string, string>, want: ShardExpect, plan: seq<seq<string>>, k: nat): seq<Failure>
    requires 1 <= k <= want.n == |plan|
  {
    if ShardName(k) in logs then Named(ShardName(k), CheckShard(logs[ShardName(k)], k, want, plan[k - 1]))
    else [MissingArtifact(ShardName(k))]
  }

  function ByShard(logs: map<string, string>, want: ShardExpect, plan: seq<seq<string>>): (r: seq<seq<Failure>>)
    requires want.n == |plan|
    ensures |r| == want.n && forall i :: 0 <= i < want.n ==> r[i] == OneShard(logs, want, plan, i + 1)
  {
    seq(want.n, i requires 0 <= i < want.n => OneShard(logs, want, plan, i + 1))
  }

  function ExtraNames(logs: map<string, string>, n: nat): set<string> {
    set name | name in logs && !IsShardName(name, n)
  }

  function VerifyShards(logs: map<string, string>, want: ShardExpect): seq<Failure>
    requires want.n > 0
  {
    SlowProblems(want.slow, want.files, want.seconds)
    + (if ExtraNames(logs, want.n) != {} then [ExtraArtifacts(ExtraNames(logs, want.n))] else [])
    + Flatten(ByShard(logs, want, PlanFor(want)))
  }

  predicate OnlyShardNames(logs: map<string, string>, n: nat) {
    forall name :: name in logs ==> IsShardName(name, n)
  }

  predicate ShardMatches(logs: map<string, string>, want: ShardExpect, plan: seq<seq<string>>, k: nat)
    requires 1 <= k <= want.n == |plan|
  {
    ShardName(k) in logs && LogMatches(Lines(logs[ShardName(k)]), k, want, plan[k - 1])
  }

  /** Each shard left a log that matches its own part of the plan. */
  predicate ShardsMatch(logs: map<string, string>, want: ShardExpect, plan: seq<seq<string>>)
    requires want.n == |plan|
  {
    forall k :: 1 <= k <= want.n ==> ShardMatches(logs, want, plan, k)
  }

  /** Artifacts test-shard-1..n and nothing else, each matching its own part of the plan; and a clean slow list. */
  predicate Covered(logs: map<string, string>, want: ShardExpect)
    requires want.n > 0
  {
    CleanSlowList(want.slow, want.files, want.seconds) && OnlyShardNames(logs, want.n)
      && ShardsMatch(logs, want, PlanFor(want))
  }

  lemma OneShardClean(logs: map<string, string>, want: ShardExpect, plan: seq<seq<string>>, k: nat)
    requires 1 <= k <= want.n == |plan|
    ensures OneShard(logs, want, plan, k) == [] <==> ShardMatches(logs, want, plan, k)
  {
    if ShardName(k) in logs {
      var problems := CheckShard(logs[ShardName(k)], k, want, plan[k - 1]);
      NoLogProblems(logs[ShardName(k)], k, want, plan[k - 1]);
      assert |Named(ShardName(k), problems)| == |problems|;
    }
  }

  lemma NoShardFailures(logs: map<string, string>, want: ShardExpect, plan: seq<seq<string>>)
    requires want.n == |plan|
    ensures Flatten(ByShard(logs, want, plan)) == [] <==> ShardsMatch(logs, want, plan)
  {
    hide OneShard, ShardMatches;
    var failures := ByShard(logs, want, plan);
    FlattenEmpty(failures);
    forall i | 0 <= i < want.n ensures failures[i] == [] <==> ShardMatches(logs, want, plan, i + 1) {
      OneShardClean(logs, want, plan, i + 1);
    }
    if Flatten(failures) == [] {
      forall k | 1 <= k <= want.n ensures ShardMatches(logs, want, plan, k) { assert failures[k - 1] == []; }
    }
  }

  lemma NoExtraNames(logs: map<string, string>, n: nat)
    ensures ExtraNames(logs, n) == {} <==> OnlyShardNames(logs, n)
  {
    if ExtraNames(logs, n) == {} {
      forall name | name in logs ensures IsShardName(name, n) { assert name !in ExtraNames(logs, n); }
    }
  }

  /** The gate reports nothing exactly when every shard ran its own part of the plan and nothing else came in. */
  lemma VerifySoundAndComplete(logs: map<string, string>, want: ShardExpect)
    requires want.n > 0
    ensures VerifyShards(logs, want) == [] <==> Covered(logs, want)
  {
    NoSlowProblems(want.slow, want.files, want.seconds);
    NoShardFailures(logs, want, PlanFor(want));
    NoExtraNames(logs, want.n);
  }

  /** What each shard ran, shard by shard. */
  function RanByShard(logs: map<string, string>, n: nat): (r: seq<seq<string>>)
    requires forall k :: 1 <= k <= n ==> ShardName(k) in logs
    ensures |r| == n
  {
    seq(n, i requires 0 <= i < n => RanInLog(logs[ShardName(i + 1)]))
  }

  lemma WithoutSlowMultiplicity(files: seq<string>, slow: seq<string>, f: string)
    requires Distinct(files)
    ensures multiset(WithoutSlow(files, slow))[f] == if f in files && f !in slow then 1 else 0
  {
    FilterMultiplicity(files, g => g !in slow, f);
    DistinctMultiplicity(files, f);
  }

  lemma WithoutSlowDistinct(files: seq<string>, slow: seq<string>)
    requires Distinct(files)
    ensures Distinct(WithoutSlow(files, slow))
  {
    forall f | f in WithoutSlow(files, slow) ensures multiset(WithoutSlow(files, slow))[f] <= 1 {
      WithoutSlowMultiplicity(files, slow, f);
    }
    MultiplicityDistinct(WithoutSlow(files, slow));
  }

  lemma ShardRanItsPart(logs: map<string, string>, want: ShardExpect, k: nat)
    requires 1 <= k <= want.n && Distinct(want.files) && ShardMatches(logs, want, PlanFor(want), k)
    ensures multiset(RanInLog(logs[ShardName(k)])) == multiset(PlanFor(want)[k - 1])
  {
    var rest := WithoutSlow(want.files, want.slow);
    WithoutSlowDistinct(want.files, want.slow);
    PlanIsDisjoint(rest, want.n, want.seconds, SHARD1_EXTRA);
    DistinctPermutation(RanInLog(logs[ShardName(k)]), PlanFor(want)[k - 1]);
  }

  /**
   * With distinct files: over all shards together every file off the slow list ran exactly once and no slow file ran.
   */
  lemma CoveredRanEveryFileOnce(logs: map<string, string>, want: ShardExpect)
    requires want.n > 0 && Distinct(want.files) && Covered(logs, want)
    ensures forall k :: 1 <= k <= want.n ==> ShardName(k) in logs
    ensures multiset(Flatten(RanByShard(logs, want.n))) == multiset(WithoutSlow(want.files, want.slow))
    ensures forall f ::
      multiset(Flatten(RanByShard(logs, want.n)))[f] == if f in want.files && f !in want.slow then 1 else 0
  {
    forall k | 1 <= k <= want.n ensures ShardName(k) in logs { assert ShardMatches(logs, want, PlanFor(want), k); }
    var rest, plan, ran := WithoutSlow(want.files, want.slow), PlanFor(want), RanByShard(logs, want.n);
    forall i | 0 <= i < want.n ensures multiset(ran[i]) == multiset(plan[i]) {
      assert ShardMatches(logs, want, PlanFor(want), i + 1);
      ShardRanItsPart(logs, want, i + 1);
    }
    FlattenPermuted(ran, plan);
    PlanIsPartition(rest, want.n, want.seconds, SHARD1_EXTRA);
    forall f ensures multiset(rest)[f] == if f in want.files && f !in want.slow then 1 else 0 {
      WithoutSlowMultiplicity(want.files, want.slow, f);
    }
  }
}
