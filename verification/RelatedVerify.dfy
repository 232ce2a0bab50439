/** scripts/ci-related-verify.ts: reading the logs of a run that executed a selection back against the frozen plan. */
module RelatedVerify {
  import opened Sequences
  import opened Text
  import opened ShardPlan
  import opened ShardLog
  import ShardVerify
  import opened RelatedPlan

  datatype Want = Want(n: nat, head: string, bun: string)

  datatype Failure =
    | UnreadablePlan
    | ForeignPlan
    | NotSelective
    | ShardCount(planned: nat)
    | OtherCommit
    | LightOnManyShards
    | EmptySelection
    | SharedFile
    | OtherSelection
    | ExtraArtifacts(names: set<string>)
    | MissingArtifact(name: string)
    | InLog(name: string, problem: Problem)

  const META: seq<string> := ["shard=", "head=", "plan=", "bun test v", "zero="]

  function HeaderRows(k: nat, want: Want, digest: string): (r: seq<string>)
    ensures |r| == 3
  {
    ["shard=" + Decimal(k) + "/" + Decimal(want.n), "head=" + want.head, "plan=" + digest]
  }

  /** The fourth row: bun's version line for a shard with files, an explicit zero for one without. */
  predicate FourthRow(lines: seq<string>, bun: string, mine: seq<string>) {
    && |lines| > 3
    && if mine != [] then ShardVerify.VersionRow(bun) <= lines[3] else lines[3] == "zero=1"
  }

  function RepeatedMarkers(lines: seq<string>, m: nat): seq<Problem>
    requires m <= |META|
  {
    if m == 0 then []
    else
      RepeatedMarkers(lines, m - 1)
      + if |RowsWith(lines, META[m - 1])| > 1 then [MarkerRows(META[m - 1], RowsWith(lines, META[m - 1]))] else []
  }

  predicate SilentAfterFourth(lines: seq<string>) {
    forall i :: 4 <= i < |lines| ==> Blank(lines[i])
  }

  function CheckLog(log: string, k: nat, want: Want, digest: string, mine: seq<string>): seq<Problem> {
    var lines := Lines(log);
    ShardVerify.HeaderProblems(lines, HeaderRows(k, want, digest), 3)
    + (if FourthRow(lines, want.bun, mine) then []
      else [WrongRow(4, if mine != [] then ShardVerify.VersionRow(want.bun) else "zero=1", RowOf(lines, 3))])
    + RepeatedMarkers(lines, |META|)
    + (if mine == [] && !SilentAfterFourth(lines) then [Output] else [])
    + RanProblems(Ran(lines), mine)
  }

  method CheckMarkersOnce(lines: seq<string>) returns (errs: seq<Problem>)
    ensures errs == RepeatedMarkers(lines, |META|)
  {
    errs := [];
    for i := 0 to |META|
      invariant errs == RepeatedMarkers(lines, i)
    {
      var at := RowsWith(lines, META[i]);
      if |at| > 1 { errs := errs + [MarkerRows(META[i], at)]; }
    }
  }

  /** `checkLog`, pushing onto `errs` as it goes. */
  method CheckLogRows(log: string, k: nat, want: Want, digest: string, mine: seq<string>) returns (errs: seq<Problem>)
    ensures errs == CheckLog(log, k, want, digest, mine)
  {
    hide RanProblems, RepeatedMarkers, ShardVerify.HeaderProblems, Lines, Ran, HeaderRows, ShardVerify.VersionRow,
      FourthRow, SilentAfterFourth, RowOf;
    var lines := Lines(log);
    errs := ShardVerify.CheckHeader(lines, HeaderRows(k, want, digest));
    if !FourthRow(lines, want.bun, mine) {
      errs := errs + [WrongRow(4, if mine != [] then ShardVerify.VersionRow(want.bun) else "zero=1", RowOf(lines, 3))];
    }
    var markers := CheckMarkersOnce(lines);
    errs := errs + markers;
    if mine == [] && !SilentAfterFourth(lines) { errs := errs + [Output]; }
    var files := CheckRan(lines, mine);
    errs := errs + files;
  }

  /**
   * The header names this shard, this commit and this plan, no marker is repeated, and what ran is what was handed out.
   */
  predicate LogMatches(lines: seq<string>, k: nat, want: Want, digest: string, mine: seq<string>) {
    && |lines| > 3 && lines[..3] == HeaderRows(k, want, digest)
    && FourthRow(lines, want.bun, mine)
    && (forall m :: 0 <= m < |META| ==> |RowsWith(lines, META[m])| <= 1)
    && (mine == [] ==> SilentAfterFourth(lines))
    && RanExactly(Ran(lines), mine)
  }

  lemma NoRepeatedMarkers(lines: seq<string>, m: nat)
    requires m <= |META|
    ensures RepeatedMarkers(lines, m) == [] <==> forall i :: 0 <= i < m ==> |RowsWith(lines, META[i])| <= 1
  {}

  lemma NoLogProblems(log: string, k: nat, want: Want, digest: string, mine: seq<string>)
    ensures CheckLog(log, k, want, digest, mine) == [] <==> LogMatches(Lines(log), k, want, digest, mine)
  {
    hide RanProblems, RanExactly, ShardVerify.VersionRow, SilentAfterFourth, RepeatedMarkers,
      ShardVerify.HeaderProblems, RowsWith, Lines, Ran, HeaderRows;
    var lines, rows := Lines(log), HeaderRows(k, want, digest);
    assert |rows| == 3;
    ShardVerify.NoHeaderProblems(lines, rows, 3);
    NoRepeatedMarkers(lines, |META|);
    NoRanProblems(Ran(lines), mine);
    RowsOf(lines, rows);
  }

  lemma RowsOf(lines: seq<string>, rows: seq<string>)
    requires |rows| == 3
    ensures (forall i :: 0 <= i < 3 ==> RowOf(lines, i) == Some(rows[i])) <==> |lines| > 2 && lines[..3] == rows
  {
    if forall i :: 0 <= i < 3 ==> RowOf(lines, i) == Some(rows[i]) {
      assert RowOf(lines, 0).Some? && RowOf(lines, 1).Some? && RowOf(lines, 2).Some?;
    }
    if |lines| > 2 && lines[..3] == rows {
      forall i | 0 <= i < 3 ensures RowOf(lines, i) == Some(rows[i]) { assert lines[..3][i] == rows[i]; }
    }
  }

  /**
   * A log that matches says in its first rows which shard of how many it is, which commit and which plan, and the
   * version of bun, or an explicit zero if nothing was handed out, and then only blank lines follow.
   */
  lemma MatchingLogSays(lines: seq<string>, k: nat, want: Want, digest: string, mine: seq<string>)
    ensures LogMatches(lines, k, want, digest, mine) <==>
      && |lines| > 3
      && lines[0] == "shard=" + Decimal(k) + "/" + Decimal(want.n) && lines[1] == "head=" + want.head
      && lines[2] == "plan=" + digest
      && (if mine == [] then lines[3] == "zero=1" && forall i :: 4 <= i < |lines| ==> Blank(lines[i])
          else "bun test v" + want.bun + " " <= lines[3])
      && (forall marker :: marker in ["shard=", "head=", "plan=", "bun test v", "zero="] ==>
        |RowsWith(lines, marker)| <= 1)
      && RanExactly(Ran(lines), mine)
  {
    hide RanExactly, RowsWith, Ran, Blank;
    if |lines| > 3 { assert lines[..3] == [lines[0], lines[1], lines[2]]; }
    forall marker ensures marker in META <==> exists m :: 0 <= m < |META| && META[m] == marker {}
  }

  // ---- all logs ----

  function PartOf(plan: CiPlan, k: nat): seq<string>
    requires k >= 1
  {
    if k <= |plan.shards| then plan.shards[k - 1] else []
  }

  function Named(name: string, problems: seq<Problem>): (r: seq<Failure>)
    ensures |r| == |problems|
  {
    seq(|problems|, i requires 0 <= i < |problems| => InLog(name, problems[i]))
  }

  function OneShard(plan: CiPlan, digest: string, logs: map<string, string>, want: Want, k: nat): seq<Failure>
    requires k >= 1
  {
    var name := ShardVerify.ShardName(k);
    if name in logs then Named(name, CheckLog(logs[name], k, want, digest, PartOf(plan, k)))
      else [MissingArtifact(name)]
  }

  function ByShard(plan: CiPlan, digest: string, logs: map<string, string>, want: Want): (r: seq<seq<Failure>>)
    ensures |r| == want.n && forall i :: 0 <= i < want.n ==> r[i] == OneShard(plan, digest, logs, want, i + 1)
  {
    seq(want.n, i requires 0 <= i < want.n => OneShard(plan, digest, logs, want, i + 1))
  }

  function PlanFailures(plan: CiPlan, want: Want): seq<Failure> {
    var union := Flatten(plan.shards);
    (if |plan.shards| != want.n then [ShardCount(|plan.shards|)] else [])
    + (if Lower(plan.sha) != Lower(want.head) then [OtherCommit] else [])
    + (if plan.scope == Light && want.n != 1 then [LightOnManyShards] else [])
    + (if plan.scope == Related && plan.tests == [] then [EmptySelection] else [])
    + (if !Distinct(union) then [SharedFile] else [])
    + (if JoinLines(Sorted(Dedup(union))) != JoinLines(Sorted(plan.tests)) then [OtherSelection] else [])
  }

  /** `plan` is None when plan.json does not parse. */
  function VerifyRelated(plan: Option<CiPlan>, digest: string, logs: map<string, string>, want: Want,
      hash: CiPlan -> string): seq<Failure> {
    if plan.None? then [UnreadablePlan]
    else if hash(plan.value) != digest then [ForeignPlan]
    else if plan.value.scope == Full then [NotSelective]
    else
      PlanFailures(plan.value, want)
      + (if ShardVerify.ExtraNames(logs, want.n) != {} then [ExtraArtifacts(ShardVerify.ExtraNames(logs, want.n))]
        else [])
      + Flatten(ByShard(plan.value, digest, logs, want))
  }

  method CheckPlan(plan: CiPlan, want: Want) returns (errs: seq<Failure>)
    ensures errs == PlanFailures(plan, want)
  {
    hide Flatten, Lower, Distinct, JoinLines, Sorted, Dedup;
    var union := Flatten(plan.shards);
    errs := if |plan.shards| != want.n then [ShardCount(|plan.shards|)] else [];
    errs := errs + if Lower(plan.sha) != Lower(want.head) then [OtherCommit] else [];
    errs := errs + if plan.scope == Light && want.n != 1 then [LightOnManyShards] else [];
    errs := errs + if plan.scope == Related && plan.tests == [] then [EmptySelection] else [];
    errs := errs + if !Distinct(union) then [SharedFile] else [];
    errs := errs + if JoinLines(Sorted(Dedup(union))) != JoinLines(Sorted(plan.tests)) then [OtherSelection] else [];
  }

  /** `verifyRelated`, pushing onto `errs` as it goes. */
  method VerifyRelatedRun(plan: Option<CiPlan>, digest: string, logs: map<string, string>, want: Want,
      hash: CiPlan -> string)
    returns (errs: seq<Failure>)
    ensures errs == VerifyRelated(plan, digest, logs, want, hash)
  {
    hide PlanFailures, OneShard, ShardVerify.ExtraNames;
    if plan.None? { return [UnreadablePlan]; }
    if hash(plan.value) != digest { return [ForeignPlan]; }
    if plan.value.scope == Full { return [NotSelective]; }
    errs := CheckPlan(plan.value, want);
    var extra := ShardVerify.ExtraNames(logs, want.n);
    if extra != {} { errs := errs + [ExtraArtifacts(extra)]; }
    ghost var head, all := errs, ByShard(plan.value, digest, logs, want);
    for i := 0 to want.n
      invariant errs == head + Flatten(all[..i])
    {
      FlattenSnoc(all[..i], all[i]);
      assert all[..i + 1] == all[..i] + [all[i]];
      errs := errs + OneShard(plan.value, digest, logs, want, i + 1);
    }
    assert all[..want.n] == all;
  }

  predicate ShardMatches(plan: CiPlan, digest: string, logs: map<string, string>, want: Want, k: nat)
    requires k >= 1
  {
    var name := ShardVerify.ShardName(k);
    name in logs && LogMatches(Lines(logs[name]), k, want, digest, PartOf(plan, k))
  }

  lemma OneShardClean(plan: CiPlan, digest: string, logs: map<string, string>, want: Want, k: nat)
    requires k >= 1
    ensures OneShard(plan, digest, logs, want, k) == [] <==> ShardMatches(plan, digest, logs, want, k)
  {
    hide CheckLog, LogMatches, Lines, ShardVerify.ShardName, PartOf;
    var name := ShardVerify.ShardName(k);
    if name in logs { NoLogProblems(logs[name], k, want, digest, PartOf(plan, k)); }
  }

  lemma NoShardFailures(plan: CiPlan, digest: string, logs: map<string, string>, want: Want)
    ensures Flatten(ByShard(plan, digest, logs, want)) == [] <==>
      forall k :: 1 <= k <= want.n ==> ShardMatches(plan, digest, logs, want, k)
  {
    hide OneShard, ShardMatches;
    var failures := ByShard(plan, digest, logs, want);
    FlattenEmpty(failures);
    forall i | 0 <= i < want.n ensures failures[i] == [] <==> ShardMatches(plan, digest, logs, want, i + 1) {
      OneShardClean(plan, digest, logs, want, i + 1);
    }
    if Flatten(failures) == [] {
      forall k | 1 <= k <= want.n ensures ShardMatches(plan, digest, logs, want, k) { assert failures[k - 1] == []; }
    }
  }

  /** A run is accepted on one plan only: the one whose digest was frozen. */
  lemma OnlyTheFrozenPlan(frozen: CiPlan, plan: Option<CiPlan>, logs: map<string, string>, want: Want,
      hash: CiPlan -> string)
    requires forall p, q :: hash(p) == hash(q) ==> p == q
    requires VerifyRelated(plan, hash(frozen), logs, want, hash) == []
    ensures plan == Some(frozen) && frozen.scope != Full
  {
    hide PlanFailures, ByShard;
  }

  /**
   * The plan's own shape, as a check on an arbitrary plan: every selected test on one shard, on this commit, on n
   * shards.
   */
  predicate PlanFits(plan: CiPlan, want: Want) {
    && |plan.shards| == want.n && Lower(plan.sha) == Lower(want.head)
    && (plan.scope == Light ==> want.n == 1)
    && (plan.scope == Related ==> plan.tests != [])
    && Distinct(Flatten(plan.shards))
    && JoinLines(Sorted(Flatten(plan.shards))) == JoinLines(Sorted(plan.tests))
  }

  lemma NoPlanFailures(plan: CiPlan, want: Want)
    ensures PlanFailures(plan, want) == [] <==> PlanFits(plan, want)
  {
    hide Lower, Flatten, JoinLines, Sorted;
    var union := Flatten(plan.shards);
    if Distinct(union) { DedupDistinct(union); }
  }

  lemma VerifyRelatedIff(plan: CiPlan, digest: string, logs: map<string, string>, want: Want, hash: CiPlan -> string)
    ensures VerifyRelated(Some(plan), digest, logs, want, hash) == [] <==>
      && hash(plan) == digest && plan.scope != Full && PlanFits(plan, want)
      && ShardVerify.OnlyShardNames(logs, want.n)
      && forall k :: 1 <= k <= want.n ==> ShardMatches(plan, digest, logs, want, k)
  {
    hide PlanFailures, PlanFits, ByShard, ShardMatches;
    NoPlanFailures(plan, want);
    NoShardFailures(plan, digest, logs, want);
    ShardVerify.NoExtraNames(logs, want.n);
  }

  // ---- end to end ----

  predicate DistinctSelection(f: PlanFacts) {
    BuildPlan(f).Some? && Distinct(BuildPlan(f).value.tests)
  }

  lemma BuiltPlanFits(f: PlanFacts, want: Want)
    requires IsRelated(f) && DistinctSelection(f)
    ensures PlanFits(BuildPlan(f).value, want) <==> want.n == SHARDS && Lower(f.sha) == Lower(want.head)
  {
    hide PlanShards, Lower, JoinLines, Sorted, Flatten;
    var plan := BuildPlan(f).value;
    RelatedPlanIsPartition(f);
    RelatedIffAnswersForLess(f);
    PermutationDistinct(plan.tests, Flatten(plan.shards));
    SortedCanonical(Flatten(plan.shards), plan.tests);
    PlanIsOnCommit(f);
  }

  lemma PlanIsOnCommit(f: PlanFacts)
    ensures BuildPlan(f).Some? ==> BuildPlan(f).value.sha == f.sha
  {
    hide PlanShards, Selected, ResponsibilityOf, Counts;
  }

  /**
   * The related run end to end. For a plan made from a duplicate-free selection, the gate accepts exactly when the run
   * used all the shards on the planned commit, the artifacts are one per shard, and every log carries its header and
   * ran exactly what shardFiles hands out for it; a shard that was handed nothing ran nothing and says so.
   */
  lemma RelatedEndToEnd(f: PlanFacts, logs: map<string, string>, want: Want, hash: CiPlan -> string)
    requires IsRelated(f) && DistinctSelection(f)
    ensures var plan, digest := BuildPlan(f).value, hash(BuildPlan(f).value);
      VerifyRelated(Some(plan), digest, logs, want, hash) == [] <==>
        && want.n == SHARDS && Lower(f.sha) == Lower(want.head)
        && ShardVerify.OnlyShardNames(logs, want.n)
        && forall k :: 1 <= k <= want.n ==> HandedOutAndRun(plan, digest, logs, want, k, hash)
  {
    hide BuildPlan, ShardMatches, HandedOutAndRun, PlanFits, ShardVerify.OnlyShardNames, Lower, VerifyRelated;
    var plan, digest := BuildPlan(f).value, hash(BuildPlan(f).value);
    VerifyRelatedIff(plan, digest, logs, want, hash);
    BuiltPlanFits(f, want);
    RelatedPlanIsPartition(f);
    forall k | 1 <= k <= SHARDS
      ensures ShardMatches(plan, digest, logs, want, k) <==> HandedOutAndRun(plan, digest, logs, want, k, hash)
    {
      MatchedIsHandedOut(plan, logs, want, k, hash);
    }
  }

  lemma MatchedIsHandedOut(plan: CiPlan, logs: map<string, string>, want: Want, k: nat, hash: CiPlan -> string)
    requires 1 <= k <= |plan.shards| && plan.scope != Full
    ensures ShardMatches(plan, hash(plan), logs, want, k) <==> HandedOutAndRun(plan, hash(plan), logs, want, k, hash)
  {
    hide LogMatches, Lines, ShardVerify.ShardName;
  }

  /** Shard k left a log that matches what `shardFiles` answers for k. */
  predicate HandedOutAndRun(plan: CiPlan, digest: string, logs: map<string, string>, want: Want, k: nat,
      hash: CiPlan -> string) {
    var name, files := ShardVerify.ShardName(k), ShardFiles(plan, digest, k, hash);
    files.Ok? && name in logs && LogMatches(Lines(logs[name]), k, want, digest, files.value)
  }

  /** So over an accepted related run each selected test ran exactly once, and nothing else ran. */
  lemma AcceptedRanSelectionOnce(f: PlanFacts, logs: map<string, string>, want: Want, hash: CiPlan -> string)
    requires IsRelated(f) && DistinctSelection(f)
    requires VerifyRelated(Some(BuildPlan(f).value), hash(BuildPlan(f).value), logs, want, hash) == []
    ensures forall k :: 1 <= k <= want.n ==> ShardVerify.ShardName(k) in logs
    ensures multiset(Flatten(ShardVerify.RanByShard(logs, want.n))) == multiset(BuildPlan(f).value.tests)
  {
    hide BuildPlan, ShardMatches, PlanFits, Flatten, ShardVerify.ShardName, ShardVerify.OnlyShardNames, Lower,
      VerifyRelated;
    var plan, digest := BuildPlan(f).value, hash(BuildPlan(f).value);
    VerifyRelatedIff(plan, digest, logs, want, hash);
    BuiltPlanFits(f, want);
    RelatedPlanIsPartition(f);
    PermutationDistinct(plan.tests, Flatten(plan.shards));
    FlattenDistinct(plan.shards);
    forall k | 1 <= k <= want.n ensures ShardVerify.ShardName(k) in logs {
      MatchedRanItsPart(plan, digest, logs, want, k);
    }
    var ran := ShardVerify.RanByShard(logs, want.n);
    forall i | 0 <= i < want.n ensures multiset(ran[i]) == multiset(plan.shards[i]) {
      MatchedRanItsPart(plan, digest, logs, want, i + 1);
    }
    FlattenPermuted(ran, plan.shards);
  }

  lemma MatchedRanItsPart(plan: CiPlan, digest: string, logs: map<string, string>, want: Want, k: nat)
    requires 1 <= k <= |plan.shards| && Distinct(plan.shards[k - 1]) && ShardMatches(plan, digest, logs, want, k)
    ensures ShardVerify.ShardName(k) in logs
    ensures multiset(RanInLog(logs[ShardVerify.ShardName(k)])) == multiset(plan.shards[k - 1])
  {
    hide ShardVerify.ShardName, Lines, Ran, HeaderRows, FourthRow, RowsWith, SilentAfterFourth;
    var name := ShardVerify.ShardName(k);
    assert RanExactly(Ran(Lines(logs[name])), plan.shards[k - 1]);
    DistinctPermutation(RanInLog(logs[name]), plan.shards[k - 1]);
  }
}
