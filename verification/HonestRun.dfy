/**
 * That the gates of a full run can be passed: the logs and facts that scripts/ci-test-shard.ts,
 * scripts/ci-proof-artifact.ts and the steps around them write when every shard runs its part get a manifest, for every
 * universe of plainly named files.
 */
module HonestRun {
  import opened Sequences
  import opened Text
  import opened ShardPlan
  import opened ShardLog
  import opened ShardVerify
  import opened SelectedReceipts
  import opened SelectedGate
  import opened ProofArtifact

  // ---- the log of a shard that does its part ----

  predicate PlainName(f: string) {
    f != "" && forall c :: c in f ==> !LineTerminator(c)
  }

  predicate PlainWant(want: ShardExpect) {
    '\n' !in want.head && '\n' !in want.bunVersion && forall f :: f in want.files ==> PlainName(f)
  }

  function GroupLines(files: seq<string>): (r: seq<string>)
    ensures |r| == |files| && forall i :: 0 <= i < |r| ==> r[i] == GROUP_OPEN + files[i] + ":"
  {
    seq(|files|, i requires 0 <= i < |files| => GROUP_OPEN + files[i] + ":")
  }

  function Rows(k: nat, want: ShardExpect, files: seq<string>): seq<string> {
    HeaderRows(k, want) + [VersionRow(want.bunVersion)] + GroupLines(files)
  }

  /** What shard k leaves when it runs these files, in one line each. */
  function LogFor(k: nat, want: ShardExpect, files: seq<string>): string {
    JoinLines(Rows(k, want, files))
  }

  lemma RowsAreLines(k: nat, want: ShardExpect, files: seq<string>)
    requires PlainWant(want) && forall f :: f in files ==> PlainName(f)
    ensures Lines(LogFor(k, want, files)) == Rows(k, want, files)
  {
    hide Lines, JoinLines, Decimal;
    var rows := Rows(k, want, files);
    NoBreakInDecimal(k);
    NoBreakInDecimal(want.n);
    NoBreakInDecimal(|want.files|);
    forall i | 0 <= i < |rows| ensures '\n' !in rows[i] {
      if i > 3 { assert rows[i] == GROUP_OPEN + files[i - 4] + ":" && PlainName(files[i - 4]); }
    }
    LinesOfJoin(rows);
  }

  lemma NoBreakInDecimal(n: nat)
    ensures '\n' !in Decimal(n)
  {
    DecimalDigits(n);
  }

  /** No row starts like another kind of row. */
  lemma FirstLetters(k: nat, want: ShardExpect, files: seq<string>, i: nat)
    requires i < |Rows(k, want, files)|
    ensures var rows := Rows(k, want, files);
      |rows[i]| > 0 && rows[i][0] ==
        if i == 0 then 's' else if i == 1 then 'h' else if i == 2 then 'd' else if i == 3 then 'b' else ':'
  {
    hide Decimal;
    if i > 3 { assert Rows(k, want, files)[i] == GROUP_OPEN + files[i - 4] + ":"; }
  }

  lemma MarkersInPlace(k: nat, want: ShardExpect, files: seq<string>, i: nat)
    requires i < 4
    ensures OnlyAt(Rows(k, want, files), META[i], i + 1)
  {
    hide Decimal;
    var rows := Rows(k, want, files);
    forall j | 0 <= j < |rows| ensures META[i] <= rows[j] <==> j == i {
      FirstLetters(k, want, files, j);
      HeaderStarts(k, want);
      if META[i] <= rows[j] { assert rows[j][0] == META[i][0]; }
    }
  }

  lemma HeaderStarts(k: nat, want: ShardExpect)
    ensures forall i :: 0 <= i < 4 ==> META[i] <= (HeaderRows(k, want) + [VersionRow(want.bunVersion)])[i]
  {
    hide Decimal;
  }

  lemma {:induction false} RanGroups(files: seq<string>)
    requires forall f :: f in files ==> PlainName(f)
    ensures Ran(GroupLines(files)) == files
  {
    hide GroupOf;
    if files != [] {
      GroupOfLine(files[0]);
      forall f | f in files[1..] ensures PlainName(f) { assert f in files; }
      RanGroups(files[1..]);
      assert GroupLines(files)[1..] == GroupLines(files[1..]);
    }
  }

  lemma GroupOfLine(f: string)
    requires PlainName(f)
    ensures GroupOf(GROUP_OPEN + f + ":") == Some(f)
  {
    var line := GROUP_OPEN + f + ":";
    assert line[9..|line| - 1] == f;
  }

  lemma RanRows(k: nat, want: ShardExpect, files: seq<string>)
    requires forall f :: f in files ==> PlainName(f)
    ensures Ran(Rows(k, want, files)) == files
  {
    hide Ran, GroupOf;
    var head := HeaderRows(k, want) + [VersionRow(want.bunVersion)];
    RanGroups(files);
    forall i | 0 <= i < 4 ensures GroupOf(head[i]).None? {
      assert head[i] == Rows(k, want, files)[i];
      FirstLetters(k, want, files, i);
      NotAGroup(head[i]);
    }
    RanAfterHeader(head, GroupLines(files));
  }

  lemma NotAGroup(line: string)
    requires |line| > 0 && line[0] != ':'
    ensures GroupOf(line).None?
  {
    if GROUP_OPEN <= line { SameHead(GROUP_OPEN, line); }
  }

  lemma SameHead(prefix: string, line: string)
    requires prefix != "" && prefix <= line
    ensures line[0] == prefix[0]
  {}

  lemma {:induction false} RanAfterHeader(head: seq<string>, lines: seq<string>)
    requires forall i :: 0 <= i < |head| ==> GroupOf(head[i]).None?
    ensures Ran(head + lines) == Ran(lines)
  {
    hide GroupOf;
    if head == [] {
      assert head + lines == lines;
    } else {
      assert (head + lines)[1..] == head[1..] + lines;
      RanAfterHeader(head[1..], lines);
    }
  }

  /** A shard that runs every file of its part once leaves a log that matches. */
  lemma HonestLogMatches(k: nat, want: ShardExpect, plan: seq<string>)
    requires PlainWant(want) && forall f :: f in plan ==> PlainName(f)
    ensures LogMatches(Lines(LogFor(k, want, Dedup(plan))), k, want, plan)
  {
    hide Lines, LogFor, Decimal, Ran, OnlyAt, Dedup;
    var files := Dedup(plan);
    RowsAreLines(k, want, files);
    RanRows(k, want, files);
    forall i | 0 <= i < 4 ensures OnlyAt(Rows(k, want, files), META[i], i + 1) { MarkersInPlace(k, want, files, i); }
    assert Rows(k, want, files)[..3] == HeaderRows(k, want);
  }

  lemma ShardNamesInjective()
    ensures forall j: nat, k: nat :: ShardName(j) == ShardName(k) ==> j == k
  {
    hide ShardName;
    forall j: nat, k: nat | ShardName(j) == ShardName(k) ensures j == k { ShardNameInjective(j, k); }
  }

  /** The artifacts of a run in which every shard does its part. */
  function HonestLogs(want: ShardExpect): map<string, string>
    requires want.n > 0
  {
    ShardNamesInjective();
    map k: nat | 1 <= k <= want.n :: ShardName(k) := LogFor(k, want, Dedup(PlanFor(want)[k - 1]))
  }

  lemma PlannedArePlain(want: ShardExpect, k: nat)
    requires PlainWant(want) && 1 <= k <= want.n
    ensures forall f :: f in PlanFor(want)[k - 1] ==> PlainName(f)
  {
    hide PlanShards, WithoutSlow;
    var rest := WithoutSlow(want.files, want.slow);
    PlanIsPartition(rest, want.n, want.seconds, SHARD1_EXTRA);
    SameMembers(Flatten(PlanFor(want)), rest);
    var plan := PlanFor(want);
    forall f | f in plan[k - 1] ensures PlainName(f) {
      FlattenMembers(plan, f);
      assert f in Flatten(plan);
      assert f in rest;
      OffTheSlowList(want.files, want.slow);
      PlainFile(want, f);
    }
  }

  lemma PlainFile(want: ShardExpect, f: string)
    requires PlainWant(want) && f in want.files
    ensures PlainName(f)
  {}

  lemma HonestLogAt(want: ShardExpect, k: nat)
    requires 1 <= k <= want.n
    ensures ShardName(k) in HonestLogs(want)
    ensures HonestLogs(want)[ShardName(k)] == LogFor(k, want, Dedup(PlanFor(want)[k - 1]))
  {
    hide LogFor, ShardName, PlanFor, Dedup;
    ShardNamesInjective();
  }

  lemma OnlyHonestNames(want: ShardExpect)
    requires want.n > 0
    ensures OnlyShardNames(HonestLogs(want), want.n)
  {
    hide LogFor, ShardName, PlanFor, Dedup;
  }

  /** The gate of the shards lets every honest run through, whatever the universe and the table of durations. */
  lemma HonestLogsAreCovered(want: ShardExpect)
    requires want.n > 0 && PlainWant(want) && CleanSlowList(want.slow, want.files, want.seconds)
    ensures Covered(HonestLogs(want), want)
  {
    hide LogFor, ShardName, PlanFor, LogMatches, CleanSlowList, PlainWant, Lines, Dedup, HonestLogs;
    assert OnlyShardNames(HonestLogs(want), want.n) by { OnlyHonestNames(want); }
    var logs := HonestLogs(want);
    forall k: nat | 1 <= k <= want.n ensures ShardMatches(logs, want, PlanFor(want), k) {
      PlannedArePlain(want, k);
      HonestLogAt(want, k);
      HonestLogMatches(k, want, PlanFor(want)[k - 1]);
    }
  }

  // ---- the input of the proof job after such a run ----

  lemma FactsNamesInjective()
    ensures forall j: nat, k: nat :: FactsName(j) == FactsName(k) ==> j == k
  {
    forall j: nat, k: nat | FactsName(j) == FactsName(k) ensures j == k {
      assert FactsName(j)[15..] == Decimal(j) && FactsName(k)[15..] == Decimal(k);
      DecimalInjective(j, k);
    }
  }

  const ALL_GREEN: map<string, string> :=
    map["tests" := "success", "check" := "success", "web" := "success", "desktop" := "success"]
  const CORE_GREEN: map<string, string> := map["typecheck" := "success", "guard" := "success", "build" := "success"]

  function FactsFor(run: ProofRun, k: nat, log: string): Facts {
    JobFacts(FACTS_VERSION, ShardName(k), run.runId, run.attempt, Some(run.sha), "success", Some(LogSha256(log)),
      CORE_GREEN, Undefined, None)
  }

  function WantFor(run: ProofRun, bunVersion: string, files: seq<string>, slow: seq<string>,
      seconds: Durations): ShardExpect {
    ShardExpect(SelectedGate.SHARDS, TestedSha(run), bunVersion, files, slow, seconds)
  }

  function AllNames(): (r: seq<string>)
    ensures |r| == SelectedGate.SHARDS && forall i :: 0 <= i < |r| ==> r[i] == ShardName(i + 1)
  {
    seq(SelectedGate.SHARDS, i requires 0 <= i < SelectedGate.SHARDS => ShardName(i + 1))
  }

  function HonestInput(run: ProofRun, tree: string, bunVersion: string, lockfile: string, files: seq<string>,
      slow: seq<string>, seconds: Durations): ProofInput {
    var want := WantFor(run, bunVersion, files, slow, seconds);
    var logs := HonestLogs(want);
    FactsNamesInjective();
    ProofInput(run, TestedSha(run), tree, bunVersion, lockfile, files, slow, seconds, ALL_GREEN,
      AllNames(), logs,
      map k: nat | 1 <= k <= SelectedGate.SHARDS ::
        FactsName(k) := FactsFor(run, k, LogFor(k, want, Dedup(PlanFor(want)[k - 1]))), WebOff)
  }

  /** A run that could have happened: real ids, plain names, a clean slow list, and the tree that was to be tested. */
  predicate Sound(run: ProofRun, tree: string, bunVersion: string, files: seq<string>, slow: seq<string>,
      seconds: Durations) {
    && run.runId > 0 && run.attempt > 0 && (run.tested.Some? ==> tree == run.tested.value.tree)
    && PlainWant(WantFor(run, bunVersion, files, slow, seconds)) && CleanSlowList(slow, files, seconds)
  }

  lemma HonestFacts(run: ProofRun, tree: string, bunVersion: string, lockfile: string, files: seq<string>,
      slow: seq<string>, seconds: Durations, k: nat)
    requires 1 <= k <= SelectedGate.SHARDS
    ensures var input := HonestInput(run, tree, bunVersion, lockfile, files, slow, seconds);
      LogOf(input, k).Some? && FactsOf(input, FactsName(k)) == FactsFor(run, k, LogOf(input, k).value)
  {
    hide LogFor, ShardName, FactsName, PlanFor, Dedup, FactsFor;
    var input := HonestInput(run, tree, bunVersion, lockfile, files, slow, seconds);
    assert FactsName(k) in input.facts && ShardName(k) in input.shardLogs;
    var want := WantFor(run, bunVersion, files, slow, seconds);
    var log := LogFor(k, want, Dedup(PlanFor(want)[k - 1]));
    HonestLogAt(want, k);
    FactsNamesInjective();
    assert input.facts[FactsName(k)] == FactsFor(run, k, log);
  }

  lemma HonestShardIsBound(run: ProofRun, tree: string, bunVersion: string, lockfile: string, files: seq<string>,
      slow: seq<string>, seconds: Durations, k: nat)
    requires run.runId > 0 && run.attempt > 0 && 1 <= k <= SelectedGate.SHARDS
    ensures var input := HonestInput(run, tree, bunVersion, lockfile, files, slow, seconds);
      ShardBound(input, k) && ReceiptOf(input, k) == Undefined && LogOf(input, k).Some?
  {
    HonestFacts(run, tree, bunVersion, lockfile, files, slow, seconds, k);
    var input := HonestInput(run, tree, bunVersion, lockfile, files, slow, seconds);
    assert input.run == run;
    hide HonestInput, ShardName, FactsName, LogOf;
    BoundByFacts(input, k);
  }

  lemma BoundByFacts(input: ProofInput, k: nat)
    requires input.run.runId > 0 && input.run.attempt > 0 && LogOf(input, k).Some?
    requires FactsOf(input, FactsName(k)) == FactsFor(input.run, k, LogOf(input, k).value)
    ensures ShardBound(input, k) && ReceiptOf(input, k) == Undefined
  {
    hide ShardName, FactsName, LogOf, FactsOf;
  }

  lemma NothingReleased(input: ProofInput, red: string -> bool)
    requires forall k: nat :: 1 <= k <= SelectedGate.SHARDS ==>
      ReceiptOf(input, k) == Undefined && LogOf(input, k).Some? && !red(LogOf(input, k).value)
    ensures SectionIn(input, red).0 == None && SectionIn(input, red).1 == []
  {
    hide ReceiptOf, LogOf, ReleasedUpTo;
    var ks := ReleasedUpTo(SelectedGate.SHARDS, LogsOf(input), ReceiptsOf(input), red);
    forall k: nat ensures k !in ks {}
    NothingIn(ks);
    EmptySection(RunOf(input), LogsOf(input), ReceiptsOf(input));
  }

  lemma EmptySection(run: Run, logs: Logs, receipts: Receipts)
    ensures SectionFrom([], run, logs, receipts).0 == None && SectionFrom([], run, logs, receipts).1 == []
  {
    var ok, found := Accepted([], run, logs, receipts), ProblemsOf([], run, logs, receipts);
    assert ok == [] && found == [];
    assert DigestsOf(ok) == [];
    NothingIn(Responsibilities(ok));
  }

  lemma HonestNames(input: ProofInput)
    requires input.logNames == AllNames()
    requires forall name :: name in input.shardLogs <==>
      exists k: nat :: 1 <= k <= SelectedGate.SHARDS && name == ShardName(k)
    ensures ListsKeys(input)
  {
    hide ShardName;
    ShardNamesInjective();
    var names := input.logNames;
    forall name ensures name in names <==> name in input.shardLogs {
      if name in names {
        var i :| 0 <= i < |names| && names[i] == name;
        assert 1 <= i + 1 <= SelectedGate.SHARDS && name == ShardName(i + 1);
      }
      if k: nat :| 1 <= k <= SelectedGate.SHARDS && name == ShardName(k) { assert names[k - 1] == name; }
    }
  }

  /** No log shows a failure. */
  ghost predicate NoneRed(input: ProofInput, red: string -> bool) {
    forall name :: name in input.shardLogs ==> !red(input.shardLogs[name])
  }

  lemma OnlyShardFacts(run: ProofRun, tree: string, bunVersion: string, lockfile: string, files: seq<string>,
      slow: seq<string>, seconds: Durations)
    ensures forall name :: name in HonestInput(run, tree, bunVersion, lockfile, files, slow, seconds).facts ==>
      ProofFact(name)
  {
    hide LogFor, Decimal, PlanFor, Dedup, ShardName;
    var input := HonestInput(run, tree, bunVersion, lockfile, files, slow, seconds);
    forall name | name in input.facts ensures ProofFact(name) {
      var k: nat :| 1 <= k <= SelectedGate.SHARDS && name == FactsName(k);
      assert name == "ci-facts-shard-" + Decimal(k);
    }
  }

  /** An honest run satisfies everything a manifest stands for. */
  lemma HonestRunIsProven(run: ProofRun, tree: string, bunVersion: string, lockfile: string, files: seq<string>,
      slow: seq<string>, seconds: Durations, red: string -> bool)
    requires Sound(run, tree, bunVersion, files, slow, seconds)
    ensures var input := HonestInput(run, tree, bunVersion, lockfile, files, slow, seconds);
      NoneRed(input, red) ==> Proven(input, red) && ListsKeys(input) && SectionIn(input, red).0 == None
  {
    hide LogFor, ShardName, FactsName, PlanFor, Dedup, PlainWant, CleanSlowList, Covered, SectionIn, ListsKeys,
      ShardBound, ReceiptOf, LogOf, OnlyKnownFacts, ProofFact, Decimal;
    var input := HonestInput(run, tree, bunVersion, lockfile, files, slow, seconds);
    if NoneRed(input, red) {
      HonestLogsAreCovered(WantFor(run, bunVersion, files, slow, seconds));
      forall k: nat | 1 <= k <= SelectedGate.SHARDS
        ensures ShardBound(input, k) && ReceiptOf(input, k) == Undefined && LogOf(input, k).Some?
          && !red(LogOf(input, k).value)
      {
        HonestShardIsBound(run, tree, bunVersion, lockfile, files, slow, seconds, k);
        assert LogOf(input, k).value == input.shardLogs[ShardName(k)] by { LogIsThere(input, k); }
      }
      NothingReleased(input, red);
      HonestNames(input);
      OnlyShardFacts(run, tree, bunVersion, lockfile, files, slow, seconds);
    }
  }

  lemma LogIsThere(input: ProofInput, k: nat)
    ensures LogOf(input, k).Some? ==>
      ShardName(k) in input.shardLogs && LogOf(input, k).value == input.shardLogs[ShardName(k)]
  {
    hide ShardName;
  }

  /** So it gets its manifest, if only the format is right. */
  lemma HonestRunGetsManifest(run: ProofRun, tree: string, bunVersion: string, lockfile: string, files: seq<string>,
      slow: seq<string>, seconds: Durations, red: string -> bool, wellFormed: Manifest -> bool)
    requires Sound(run, tree, bunVersion, files, slow, seconds)
    ensures var input := HonestInput(run, tree, bunVersion, lockfile, files, slow, seconds);
      NoneRed(input, red) && wellFormed(ManifestOf(input, None)) ==>
        BuildProof(input, red, wellFormed).manifest == Some(ManifestOf(input, None))
  {
    hide HonestInput, BuildProof, Proven, Sound, ManifestOf, NoneRed;
    HonestRunIsProven(run, tree, bunVersion, lockfile, files, slow, seconds, red);
    ManifestIff(HonestInput(run, tree, bunVersion, lockfile, files, slow, seconds), red, wellFormed);
  }

  // ---- a universe that lists a file twice ----

  /**
   * When the logs count as many files as are listed, a universe that lists a file twice gets a manifest whose two
   * digests differ and whose count is not the number of files that ran.
   */
  lemma TwiceListedGetsManifest(run: ProofRun, tree: string, bunVersion: string, lockfile: string, files: seq<string>,
      slow: seq<string>, seconds: Durations, red: string -> bool, wellFormed: Manifest -> bool)
    requires Sound(run, tree, bunVersion, files, slow, seconds) && !Distinct(WithoutSlow(files, slow))
    ensures var input := HonestInput(run, tree, bunVersion, lockfile, files, slow, seconds);
      NoneRed(input, red) && wellFormed(ManifestOf(input, None)) ==>
        var manifest := BuildProof(input, red, wellFormed).manifest;
        manifest.Some? && manifest.value.universe != manifest.value.selected
          && manifest.value.count != |RanFiles(input)|
  {
    hide BuildProof, ManifestOf, Proven, RanFiles, HonestLogs, ListsKeys, NoneRed, Sound, WithoutSlow, Distinct;
    var input := HonestInput(run, tree, bunVersion, lockfile, files, slow, seconds);
    if NoneRed(input, red) && wellFormed(ManifestOf(input, None)) {
      HonestRunIsProven(run, tree, bunVersion, lockfile, files, slow, seconds, red);
      HonestRunGetsManifest(run, tree, bunVersion, lockfile, files, slow, seconds, red, wellFormed);
      ManifestCoversUniverse(input, red, wellFormed);
    }
  }

  const TWICE: seq<string> := ["tests/a.test.ts", "tests/a.test.ts"]

  /** There is such a universe, for any run of real ids on a plain commit. */
  lemma TwiceIsSound(run: ProofRun, tree: string, bunVersion: string)
    requires run.runId > 0 && run.attempt > 0 && run.tested.None? && '\n' !in run.sha && '\n' !in bunVersion
    ensures Sound(run, tree, bunVersion, TWICE, [], map[]) && !Distinct(WithoutSlow(TWICE, []))
  {
    hide TooHeavy, WithoutSlow, Distinct;
    TwiceIsNotDistinct();
    NothingIsLight();
  }

  lemma TwiceIsNotDistinct()
    ensures !Distinct(WithoutSlow(TWICE, []))
  {
    assert TWICE[1..] == ["tests/a.test.ts"] && TWICE[1..][1..] == [];
    assert WithoutSlow(TWICE, []) == TWICE;
    assert TWICE[0] == TWICE[1];
  }

  lemma NothingIsLight()
    ensures CleanSlowList([], TWICE, map[])
  {
    hide Filter, SumBy;
    assert Filter(Dedup([]), f => f in TWICE) == [] by { NothingIn(Filter(Dedup([]), f => f in TWICE)); }
    assert SumBy(WeightIn(map[]), []) == 0.0 by { NoSum(WeightIn(map[])); }
  }

  lemma NoSum(w: string -> real)
    ensures SumBy(w, []) == 0.0
  {}

  /**
   * What keeps it out in practice is the third row of a log: where it counts each file once, as the test runner's own
   * discovery does, a covered run has a universe without repetitions.
   */
  lemma DiscoveredCountIsTheGuard(logs: map<string, string>, want: ShardExpect, k: nat)
    requires 1 <= k <= want.n && Covered(logs, want)
    requires ShardName(k) in logs
      && RowOf(Lines(logs[ShardName(k)]), 2) == Some("discovered=" + Decimal(|Elements(want.files)|))
    ensures Distinct(want.files)
  {
    hide Lines, Decimal, ShardName, PlanFor, Ran, OnlyAt;
    var lines := Lines(logs[ShardName(k)]);
    assert ShardMatches(logs, want, PlanFor(want), k);
    assert lines[2] == lines[..3][2] == HeaderRows(k, want)[2];
    var a, b := Decimal(|Elements(want.files)|), Decimal(|want.files|);
    assert ("discovered=" + a)[11..] == a && ("discovered=" + b)[11..] == b;
    DecimalInjective(|Elements(want.files)|, |want.files|);
    SizeDistinct(want.files);
  }
}
