/**
 * scripts/ci-proof-artifact.ts: the coverage proof of a full run. A manifest is written only when every job, every
 * shard's log and every fact a job left behind line up with this run.
 */
module ProofArtifact {
  import opened Sequences
  import opened Text
  import opened ShardPlan
  import opened ShardLog
  import opened ShardVerify
  import opened SelectedReceipts
  import opened SelectedGate
  import opened SectionReader

  const FACTS_VERSION := 1
  const JOBS: seq<string> := ["tests", "check", "web", "desktop"]
  const WEB_BUILD_JOB := "web-build"
  const WEB_FACTS := "ci-facts-web-build"
  const CORE_STEPS: seq<string> := ["typecheck", "guard", "build"]
  const WEB_BUILD_CHECK := "web production build"

  // ---- what comes in ----

  datatype Tested = Tested(sha: string, tree: string)
  datatype ProofRun = ProofRun(repo: string, runId: int, attempt: int, sha: string, workflow: string,
    workflowSha: string, head: string, base: string, tested: Option<Tested>)

  datatype WebMode = WebOff | WebObserve | WebOn
  datatype Outcome = Success | Failed | TimedOut | Skipped
  datatype WebBuild = WebBuild(mode: Option<WebMode>, outcome: Outcome)

  /** job-facts.json as read back; a field of the wrong type counts as one with no acceptable value. */
  datatype Facts =
    | NoFacts
    | NotObject
    | JobFacts(version: int, job: string, runId: int, attempt: int, head: Option<string>, status: string,
               logDigest: Option<LogDigest>, core: map<string, string>, selected: Raw, webBuild: Option<WebBuild>)

  datatype ProofInput = ProofInput(
    run: ProofRun, checkoutSha: string, checkoutTree: string, bunVersion: string, lockfile: string,
    files: seq<string>, slow: seq<string>, seconds: Durations, needs: map<string, string>,
    logNames: seq<string>, shardLogs: map<string, string>, facts: map<string, Facts>, webMode: WebMode)

  /** `logNames` lists the keys of the map of logs, each once, in its own order. */
  ghost predicate ListsKeys(input: ProofInput) {
    Distinct(input.logNames) && forall name :: name in input.logNames <==> name in input.shardLogs
  }

  /** toJSON(needs): each job's result, and whether it exported `ran`. */
  datatype Need = Need(result: string, ran: Option<string>)

  /** `proofNeeds`: a desktop job that ended green without running does not count as a success. */
  function ProofNeeds(raw: map<string, Need>): map<string, string> {
    map job | job in raw ::
      if job == "desktop" && raw[job].result == "success" && raw[job].ran != Some("true") then "not run"
      else raw[job].result
  }

  function TestedSha(run: ProofRun): string {
    if run.tested.Some? then run.tested.value.sha else run.sha
  }

  function FactsName(k: nat): string {
    "ci-facts-shard-" + Decimal(k)
  }

  function FactsOf(input: ProofInput, name: string): Facts {
    if name in input.facts then input.facts[name] else NoFacts
  }

  function LogOf(input: ProofInput, k: nat): Option<string> {
    if ShardName(k) in input.shardLogs then Some(input.shardLogs[ShardName(k)]) else None
  }

  function ReceiptOf(input: ProofInput, k: nat): Raw {
    match FactsOf(input, FactsName(k))
    case JobFacts(_, _, _, _, _, _, _, _, selected, _) => selected
    case _ => Undefined
  }

  function WantOf(input: ProofInput): ShardExpect {
    ShardExpect(SHARDS, TestedSha(input.run), input.bunVersion, input.files, input.slow, input.seconds)
  }

  function RunOf(input: ProofInput): Run {
    Run(input.run.runId, input.run.attempt, TestedSha(input.run))
  }

  function LogsOf(input: ProofInput): Logs {
    (k: nat) => LogOf(input, k)
  }

  function ReceiptsOf(input: ProofInput): Receipts {
    (k: nat) => ReceiptOf(input, k)
  }

  function SectionIn(input: ProofInput, red: string -> bool): (Option<Section>, seq<SelectedReceipts.Problem>) {
    SectionOf(RunOf(input), LogsOf(input), ReceiptsOf(input), red)
  }

  // ---- refusals ----

  datatype Refusal =
    | JobNotGreen(job: string)
    | OtherCheckout
    | OtherTree
    | NotCovered(failure: ShardVerify.Failure)
    | NoSuchFacts(name: string)
    | ForeignFacts(name: string)
    | UnusableFacts(name: string)
    | FactsOfOtherRun(name: string)
    | FactsOfOtherHead(name: string)
    | FactsNotGreen(name: string)
    | LogNotOfThisAttempt(shard: nat)
    | CoreStepNotGreen(step: string)
    | BadRelease(problem: SelectedReceipts.Problem)
    | ExtraFacts
    | WebBuildNotGreen
    | BadManifest

  function FactsProblems(name: string, raw: Facts, job: string, run: ProofRun): seq<Refusal> {
    match raw
    case NoFacts => [NoSuchFacts(name)]
    case NotObject => [ForeignFacts(name)]
    case JobFacts(version, ofJob, runId, attempt, head, status, _, _, _, _) =>
      if version != FACTS_VERSION || ofJob != job then [ForeignFacts(name)]
      else if runId <= 0 || attempt <= 0 || head.None? then [UnusableFacts(name)]
      else
        (if runId != run.runId || attempt != run.attempt then [FactsOfOtherRun(name)] else [])
        + (if head.value != run.sha then [FactsOfOtherHead(name)] else [])
        + (if status != "success" then [FactsNotGreen(name)] else [])
  }

  /** The facts are this job's, of this attempt of this run on this commit, and green. */
  predicate FactsBound(raw: Facts, job: string, run: ProofRun) {
    && raw.JobFacts? && raw.version == 1 && raw.job == job
    && raw.runId == run.runId > 0 && raw.attempt == run.attempt > 0 && raw.head == Some(run.sha)
      && raw.status == "success"
  }

  function CoreProblems(core: map<string, string>, steps: seq<string>): seq<Refusal> {
    if steps == [] then []
    else
      CoreProblems(core, steps[..|steps| - 1])
      + if steps[|steps| - 1] in core && core[steps[|steps| - 1]] == "success" then []
        else [CoreStepNotGreen(steps[|steps| - 1])]
  }

  function ShardFactProblems(input: ProofInput, k: nat): seq<Refusal> {
    var raw := FactsOf(input, FactsName(k));
    FactsProblems(FactsName(k), raw, ShardName(k), input.run)
    + if !raw.JobFacts? then []
      else
        (if LogOf(input, k).None? || raw.logDigest != Some(LogSha256(LogOf(input, k).value))
         then [LogNotOfThisAttempt(k)] else [])
        + (if k == 1 then CoreProblems(raw.core, CORE_STEPS) else [])
  }

  function ShardProblemsUpTo(input: ProofInput, m: nat): seq<Refusal> {
    if m == 0 then [] else ShardProblemsUpTo(input, m - 1) + ShardFactProblems(input, m)
  }

  /** `shardProblems`, one shard after the other. */
  method ShardProblems(input: ProofInput) returns (out: seq<Refusal>)
    ensures out == ShardProblemsUpTo(input, SHARDS)
  {
    hide FactsProblems, CoreProblems, FactsOf, LogOf, FactsName, ShardName;
    out := [];
    for k := 0 to SHARDS
      invariant out == ShardProblemsUpTo(input, k)
    {
      var raw := FactsOf(input, FactsName(k + 1));
      var found := FactsProblems(FactsName(k + 1), raw, ShardName(k + 1), input.run);
      if raw.JobFacts? {
        var log := LogOf(input, k + 1);
        var log' :=
          if log.None? || raw.logDigest != Some(LogSha256(log.value)) then [LogNotOfThisAttempt(k + 1)] else [];
        var core := if k + 1 == 1 then CoreProblems(raw.core, CORE_STEPS) else [];
        found := found + (log' + core);
      }
      out := out + found;
    }
  }

  /**
   * Shard k's facts are bound to this run and were written beside this very log; shard 1 also passed the core steps.
   */
  predicate ShardBound(input: ProofInput, k: nat) {
    var raw := FactsOf(input, FactsName(k));
    && FactsBound(raw, ShardName(k), input.run)
    && LogOf(input, k).Some? && raw.logDigest == Some(LogSha256(LogOf(input, k).value))
    && (k == 1 ==> forall step :: step in CORE_STEPS ==> step in raw.core && raw.core[step] == "success")
  }

  lemma NoCoreProblems(core: map<string, string>, steps: seq<string>)
    ensures CoreProblems(core, steps) == [] <==>
      forall step :: step in steps ==> step in core && core[step] == "success"
  {
    if steps != [] {
      NoCoreProblems(core, steps[..|steps| - 1]);
      assert steps == steps[..|steps| - 1] + [steps[|steps| - 1]];
    }
  }

  lemma NoShardFactProblems(input: ProofInput, k: nat)
    ensures ShardFactProblems(input, k) == [] <==> ShardBound(input, k)
  {
    hide CoreProblems, FactsOf, LogOf, FactsName, ShardName;
    var raw := FactsOf(input, FactsName(k));
    if raw.JobFacts? { NoCoreProblems(raw.core, CORE_STEPS); }
  }

  lemma NoShardProblems(input: ProofInput, m: nat)
    ensures ShardProblemsUpTo(input, m) == [] <==> forall k :: 1 <= k <= m ==> ShardBound(input, k)
  {
    hide ShardFactProblems, ShardBound;
    if m > 0 {
      NoShardProblems(input, m - 1);
      NoShardFactProblems(input, m);
    }
  }

  // ---- the web build (src/lib/ci-web-build-policy.ts) ----

  datatype WebVerdict = WebVerdict(inProof: bool, blocksProof: bool)

  function JudgeWebBuild(mode: WebMode, outcome: Option<Outcome>): WebVerdict {
    match mode
    case WebOn => WebVerdict(outcome == Some(Success), outcome != Some(Success))
    case _ => WebVerdict(false, false)
  }

  function ReadWebBuild(input: ProofInput): Option<Outcome> {
    var raw := FactsOf(input, WEB_FACTS);
    if FactsProblems(WEB_FACTS, raw, WEB_BUILD_JOB, input.run) == [] && raw.JobFacts? && raw.webBuild.Some?
       && raw.webBuild.value.mode == Some(input.webMode) then Some(raw.webBuild.value.outcome) else None
  }

  predicate Green(input: ProofInput, job: string) {
    job in input.needs && input.needs[job] == "success"
  }

  function WebOutcome(input: ProofInput): Option<Outcome> {
    var outcome := if input.webMode == WebOff then None else ReadWebBuild(input);
    if outcome == Some(Success) && !Green(input, WEB_BUILD_JOB) then None else outcome
  }

  // ---- the manifest ----

  datatype ListDigest = ListSha256(text: string)
  datatype LockDigest = LockSha256(text: string)
  datatype Policy = FullPolicy | FullWithReleases(section: SectionDigest)

  datatype Manifest = Manifest(
    repo: string, head: string, base: string, checkoutSha: string, checkoutTree: string, workflow: string,
    workflowSha: string, policy: Policy, bun: string, lockfile: LockDigest, universe: ListDigest, selected: ListDigest,
    count: nat, checks: seq<string>)

  function ListDigestOf(files: seq<string>): ListDigest {
    ListSha256(JoinLines(files))
  }

  function RanIn(names: seq<string>, logs: map<string, string>): (r: seq<string>)
    ensures forall f :: f in r ==> f != "" && '\n' !in f
  {
    if names == [] then [] else (if names[0] in logs then RanInLog(logs[names[0]]) else []) + RanIn(names[1..], logs)
  }

  /** `ranFiles`: what the logs say ran, each file once, in order. */
  function RanFiles(input: ProofInput): seq<string> {
    SortedSet(RanIn(input.logNames, input.shardLogs))
  }

  function CoveredFiles(input: ProofInput): seq<string> {
    Sorted(WithoutSlow(input.files, input.slow))
  }

  function Checks(web: bool): seq<string> {
    JOBS + if web then [WEB_BUILD_CHECK] else []
  }

  function ManifestOf(input: ProofInput, section: Option<Section>): Manifest {
    Manifest(input.run.repo, input.run.head, input.run.base, input.checkoutSha, input.checkoutTree, input.run.workflow,
      input.run.workflowSha,
      if section.Some? then FullWithReleases(SectionSha256(AsWritten(section.value))) else FullPolicy,
      input.bunVersion, LockSha256(input.lockfile), ListDigestOf(CoveredFiles(input)), ListDigestOf(RanFiles(input)),
      |CoveredFiles(input)|,
      Checks(JudgeWebBuild(input.webMode, WebOutcome(input)).inProof))
  }

  datatype Proof = Proof(manifest: Option<Manifest>, refusals: seq<Refusal>, selected: Option<Section>)

  function JobProblems(input: ProofInput, jobs: seq<string>): seq<Refusal> {
    if jobs == [] then []
    else
      JobProblems(input, jobs[..|jobs| - 1])
      + if Green(input, jobs[|jobs| - 1]) then [] else [JobNotGreen(jobs[|jobs| - 1])]
  }

  function Uncovered(failures: seq<ShardVerify.Failure>): (r: seq<Refusal>)
    ensures |r| == |failures|
  {
    seq(|failures|, i requires 0 <= i < |failures| => NotCovered(failures[i]))
  }

  function BadReleases(problems: seq<SelectedReceipts.Problem>): (r: seq<Refusal>)
    ensures |r| == |problems|
  {
    seq(|problems|, i requires 0 <= i < |problems| => BadRelease(problems[i]))
  }

  predicate KnownFacts(name: string) {
    name == WEB_FACTS || exists k :: 1 <= k <= SHARDS && name == FactsName(k)
  }

  predicate OnlyKnownFacts(input: ProofInput) {
    forall name :: name in input.facts ==> KnownFacts(name)
  }

  function CheckoutProblems(input: ProofInput): seq<Refusal> {
    (if input.checkoutSha != TestedSha(input.run) then [OtherCheckout] else [])
    + (if input.run.tested.Some? && input.checkoutTree != input.run.tested.value.tree then [OtherTree] else [])
  }

  function Refusals(input: ProofInput, red: string -> bool): seq<Refusal> {
    JobProblems(input, JOBS)
    + CheckoutProblems(input)
    + Uncovered(VerifyShards(input.shardLogs, WantOf(input)))
    + ShardProblemsUpTo(input, SHARDS)
    + BadReleases(SectionIn(input, red).1)
    + (if OnlyKnownFacts(input) then [] else [ExtraFacts])
    + (if JudgeWebBuild(input.webMode, WebOutcome(input)).blocksProof then [WebBuildNotGreen] else [])
  }

  /** `buildCiProof`; `wellFormed` is the strict format check of src/lib/ci-proof-manifest.ts. */
  function BuildProof(input: ProofInput, red: string -> bool, wellFormed: Manifest -> bool): Proof {
    var refusals, section := Refusals(input, red), SectionIn(input, red).0;
    var manifest := ManifestOf(input, section);
    if refusals != [] then Proof(None, refusals, None)
    else if !wellFormed(manifest) then Proof(None, [BadManifest], None)
    else Proof(Some(manifest), [], section)
  }

  method CheckJobs(input: ProofInput) returns (refusals: seq<Refusal>)
    ensures refusals == JobProblems(input, JOBS)
  {
    refusals := [];
    for i := 0 to |JOBS|
      invariant refusals == JobProblems(input, JOBS[..i])
    {
      assert JOBS[..i + 1][..i] == JOBS[..i];
      if !Green(input, JOBS[i]) { refusals := refusals + [JobNotGreen(JOBS[i])]; }
    }
    assert JOBS[..|JOBS|] == JOBS;
  }

  /** `buildCiProof` as written: refusals are pushed check after check, and only an empty list leads to a manifest. */
  method BuildCiProof(input: ProofInput, red: string -> bool, wellFormed: Manifest -> bool) returns (proof: Proof)
    ensures proof == BuildProof(input, red, wellFormed)
  {
    hide JobProblems, CheckoutProblems, VerifyShards, ShardProblemsUpTo, SectionOf, KnownFacts, JudgeWebBuild,
      WebOutcome, ManifestOf, Uncovered, BadReleases;
    var refusals := CheckJobs(input);
    refusals := refusals + CheckoutProblems(input);
    refusals := refusals + Uncovered(VerifyShards(input.shardLogs, WantOf(input)));
    var facts := ShardProblems(input);
    refusals := refusals + facts;
    var section, problems := CollectSection(RunOf(input), LogsOf(input), ReceiptsOf(input), red);
    assert (section, problems) == SectionIn(input, red);
    refusals := refusals + BadReleases(problems);
    refusals := refusals + if OnlyKnownFacts(input) then [] else [ExtraFacts];
    refusals := refusals
      + if JudgeWebBuild(input.webMode, WebOutcome(input)).blocksProof then [WebBuildNotGreen] else [];
    if refusals != [] { return Proof(None, refusals, None); }
    var manifest := ManifestOf(input, section);
    if !wellFormed(manifest) { return Proof(None, [BadManifest], None); }
    return Proof(Some(manifest), [], section);
  }

  // ---- what a manifest proves ----

  /** The only facts a proof takes: those of the web build and of the eight shards. */
  predicate ProofFact(name: string) {
    name == "ci-facts-web-build" || exists k :: 1 <= k <= 8 && name == "ci-facts-shard-" + Decimal(k)
  }

  /**
   * The web build's job is green, and the facts it left behind are this run's, were made under the same mode, and tell
   * of a success.
   */
  predicate WebBuildSucceeded(input: ProofInput) {
    && "web-build" in input.needs && input.needs["web-build"] == "success" && "ci-facts-web-build" in input.facts
    && var raw := input.facts["ci-facts-web-build"];
       FactsBound(raw, "web-build", input.run) && raw.webBuild == Some(WebBuild(Some(input.webMode), Success))
  }

  lemma NoFactsProblems(name: string, raw: Facts, job: string, run: ProofRun)
    ensures FactsProblems(name, raw, job, run) == [] <==> FactsBound(raw, job, run)
  {}

  lemma WebBuildIff(input: ProofInput)
    requires input.webMode == WebOn
    ensures WebOutcome(input) == Some(Success) <==> WebBuildSucceeded(input)
  {
    hide FactsProblems;
    NoFactsProblems(WEB_FACTS, FactsOf(input, WEB_FACTS), WEB_BUILD_JOB, input.run);
  }

  /** Everything a manifest stands for. */
  ghost predicate Proven(input: ProofInput, red: string -> bool) {
    && (forall job :: job in JOBS ==> Green(input, job))
    && input.checkoutSha == TestedSha(input.run)
    && (input.run.tested.Some? ==> input.checkoutTree == input.run.tested.value.tree)
    && Covered(input.shardLogs, WantOf(input))
    && (forall k :: 1 <= k <= SHARDS ==> ShardBound(input, k))
    && SectionIn(input, red).1 == []
    && (forall name :: name in input.facts ==> ProofFact(name))
    && (input.webMode == WebOn ==> WebBuildSucceeded(input))
  }

  lemma NoJobProblems(input: ProofInput, jobs: seq<string>)
    ensures JobProblems(input, jobs) == [] <==> forall job :: job in jobs ==> Green(input, job)
  {
    hide Green;
    if jobs != [] {
      NoJobProblems(input, jobs[..|jobs| - 1]);
      assert jobs == jobs[..|jobs| - 1] + [jobs[|jobs| - 1]];
    }
  }

  lemma KnownFactsSay(input: ProofInput)
    ensures OnlyKnownFacts(input) <==> forall name :: name in input.facts ==> ProofFact(name)
  {
    hide Decimal;
    forall name ensures KnownFacts(name) <==> ProofFact(name) {
      if k :| 1 <= k <= SHARDS && name == FactsName(k) { assert name == "ci-facts-shard-" + Decimal(k); }
      if k :| 1 <= k <= 8 && name == "ci-facts-shard-" + Decimal(k) { assert name == FactsName(k); }
    }
  }

  lemma NoRefusals(input: ProofInput, red: string -> bool)
    ensures Refusals(input, red) == [] <==> Proven(input, red)
  {
    hide JobProblems, Green, Covered, VerifyShards, ShardProblemsUpTo, ShardBound, SectionIn, OnlyKnownFacts,
      WebOutcome, TestedSha, JOBS, ProofFact, WebBuildSucceeded;
    NoJobProblems(input, JOBS);
    KnownFactsSay(input);
    if input.webMode == WebOn { WebBuildIff(input); }
    VerifySoundAndComplete(input.shardLogs, WantOf(input));
    NoShardProblems(input, SHARDS);
  }

  /** A manifest is written exactly when all of it holds and the result is a well-formed manifest. */
  lemma ManifestIff(input: ProofInput, red: string -> bool, wellFormed: Manifest -> bool)
    ensures BuildProof(input, red, wellFormed).manifest.Some? <==>
      Proven(input, red) && wellFormed(ManifestOf(input, SectionIn(input, red).0))
    ensures BuildProof(input, red, wellFormed).manifest.Some? ==>
      && BuildProof(input, red, wellFormed).manifest.value == ManifestOf(input, SectionIn(input, red).0)
      && BuildProof(input, red, wellFormed).selected == SectionIn(input, red).0
  {
    hide Refusals, Proven, ManifestOf, SectionIn;
    NoRefusals(input, red);
  }

  /**
   * What a manifest certifies: the repository, head, base and workflow of this run, checked out at the tested commit
   * and tree, with this toolchain; the required jobs by name, each green, and beside them the web build exactly when
   * the mode is on and it succeeded.
   */
  lemma ManifestSays(input: ProofInput, red: string -> bool, wellFormed: Manifest -> bool)
    requires BuildProof(input, red, wellFormed).manifest.Some?
    ensures var m, run := BuildProof(input, red, wellFormed).manifest.value, input.run;
      && m.repo == run.repo && m.head == run.head && m.base == run.base
      && m.workflow == run.workflow && m.workflowSha == run.workflowSha
      && m.checkoutSha == (match run.tested case Some(t) => t.sha case None => run.sha)
      && m.checkoutTree == (match run.tested case Some(t) => t.tree case None => input.checkoutTree)
      && m.bun == input.bunVersion && m.lockfile == LockSha256(input.lockfile)
    ensures var m, required := BuildProof(input, red, wellFormed).manifest.value, ["tests", "check", "web", "desktop"];
      && (forall job :: job in required ==> job in input.needs && input.needs[job] == "success")
      && m.checks == required + (if input.webMode == WebOn then ["web production build"] else [])
      && (input.webMode == WebOn ==> WebBuildSucceeded(input))
  {
    hide Refusals, SectionIn, Covered, ShardBound, KnownFacts, CoveredFiles, RanFiles, WebOutcome, WebBuildSucceeded;
    ManifestIff(input, red, wellFormed);
    assert forall job :: job in JOBS ==> Green(input, job);
    if input.webMode == WebOn { WebBuildIff(input); }
  }

  lemma RanInMembers(names: seq<string>, logs: map<string, string>, f: string)
    ensures f in RanIn(names, logs) <==> exists name :: name in names && name in logs && f in RanInLog(logs[name])
  {
    hide RanInLog;
    if names != [] {
      RanInMembers(names[1..], logs, f);
      assert names == [names[0]] + names[1..];
    }
  }

  /** The files that ran, over all logs, are exactly the files off the slow list. */
  lemma CoveredRanTheUniverse(input: ProofInput)
    requires ListsKeys(input) && Covered(input.shardLogs, WantOf(input))
    ensures forall f :: f in RanIn(input.logNames, input.shardLogs) <==> f in WithoutSlow(input.files, input.slow)
  {
    var want := WantOf(input);
    var plan := PlanFor(want);
    PlanIsPartition(WithoutSlow(want.files, want.slow), want.n, want.seconds, SHARD1_EXTRA);
    SameMembers(Flatten(plan), WithoutSlow(want.files, want.slow));
    forall f ensures f in RanIn(input.logNames, input.shardLogs) <==> f in Flatten(plan) {
      RanInMembers(input.logNames, input.shardLogs, f);
      FlattenMembers(plan, f);
      ShardsCover(input.shardLogs, want, plan, f);
    }
  }

  lemma ShardsCover(logs: map<string, string>, want: ShardExpect, plan: seq<seq<string>>, f: string)
    requires want.n == |plan| && OnlyShardNames(logs, want.n) && ShardsMatch(logs, want, plan)
    ensures (exists name :: name in logs && f in RanInLog(logs[name])) <==> exists i :: 0 <= i < |plan| && f in plan[i]
  {
    hide ShardName, Lines, Ran, HeaderRows, VersionRow, OnlyAt;
    if name :| name in logs && f in RanInLog(logs[name]) {
      var k :| 1 <= k <= want.n && name == ShardName(k);
      assert ShardMatches(logs, want, plan, k);
      assert f in plan[k - 1];
    }
    if i :| 0 <= i < |plan| && f in plan[i] {
      assert ShardMatches(logs, want, plan, i + 1);
      assert f in RanInLog(logs[ShardName(i + 1)]);
    }
  }

  /**
   * With a manifest, the set of files that ran is the universe off the slow list. The two digests in it are equal, and
   * its count is the number of files that ran, exactly when the universe lists no file twice.
   */
  lemma ManifestCoversUniverse(input: ProofInput, red: string -> bool, wellFormed: Manifest -> bool)
    requires ListsKeys(input)
    requires BuildProof(input, red, wellFormed).manifest.Some?
    ensures forall f :: f in RanFiles(input) <==> f in input.files && f !in input.slow
    ensures var m := BuildProof(input, red, wellFormed).manifest.value;
      && (m.universe == m.selected <==> Distinct(WithoutSlow(input.files, input.slow)))
      && (m.count == |RanFiles(input)| <==> Distinct(WithoutSlow(input.files, input.slow)))
  {
    ManifestIff(input, red, wellFormed);
    CoveredRanTheUniverse(input);
    var rest, ran := WithoutSlow(input.files, input.slow), RanIn(input.logNames, input.shardLogs);
    SortedSetMembers(ran);
    forall f ensures f in RanFiles(input) <==> f in input.files && f !in input.slow {
      assert f in rest <==> f in input.files && f !in input.slow;
    }
    DigestsAgree(rest, ran);
  }

  lemma DigestsAgree(rest: seq<string>, ran: seq<string>)
    requires forall f :: f in ran <==> f in rest
    requires forall f :: f in ran ==> f != "" && '\n' !in f
    ensures ListDigestOf(Sorted(rest)) == ListDigestOf(SortedSet(ran)) <==> Distinct(rest)
    ensures |Sorted(rest)| == |SortedSet(ran)| <==> Distinct(rest)
  {
    hide Sorted, JoinLines;
    SortedSorts(rest);
    SortedSetMembers(ran);
    if Distinct(rest) {
      DedupDistinct(rest);
      SortedSetCanonical(ran, rest);
    } else {
      if |rest| == |SortedSet(ran)| { SameSizeDistinct(rest, SortedSet(ran)); }
      if ListDigestOf(Sorted(rest)) == ListDigestOf(SortedSet(ran)) { JoinInjective(Sorted(rest), SortedSet(ran)); }
    }
  }

  /** A list with the members and the length of a duplicate-free one is duplicate-free. */
  lemma SameSizeDistinct(xs: seq<string>, ys: seq<string>)
    requires Distinct(ys) && |xs| == |ys| && forall x :: x in xs <==> x in ys
    ensures Distinct(xs)
  {
    var s := Elements(xs);
    assert s == Elements(ys);
    DistinctSize(ys);
    SizeDistinct(xs);
  }

  lemma DistinctSize(xs: seq<string>)
    requires Distinct(xs)
    ensures |Elements(xs)| == |xs|
  {
    if xs != [] {
      DistinctSize(xs[1..]);
      assert Elements(xs) == Elements(xs[1..]) + {xs[0]};
    }
  }

  lemma SizeDistinct(xs: seq<string>)
    ensures |Elements(xs)| <= |xs|
    ensures |Elements(xs)| == |xs| ==> Distinct(xs)
  {
    if xs != [] {
      SizeDistinct(xs[1..]);
      assert Elements(xs) == Elements(xs[1..]) + {xs[0]};
      if xs[0] in xs[1..] { assert Elements(xs) == Elements(xs[1..]); }
    }
  }

  /**
   * The section lists an applied, releasing receipt of shard k for this log, this run and the section's own
   * responsibility.
   */
  ghost predicate CoversShard(section: Section, k: nat, run: Run, log: string) {
    exists i :: 0 <= i < |section.receipts|
      && ListsRelease(section.receipts[i], section.responsibilityDigest, k, run, log)
  }

  predicate ListsRelease(listed: Listed, responsibility: string, k: nat, run: Run, log: string) {
    var r := listed.receipt;
    && listed.shard == r.shard == k && listed.digest == ReceiptSha256(r) && r.applied && r.allow
    && r.runId == run.runId && r.attempt == run.attempt && Lower(r.head) == Lower(run.head)
    && r.logDigest == LogSha256(log)
    && r.responsibilityDigest == Some(responsibility)
  }

  /**
   * With a manifest, every shard whose log shows failures is covered by an applied receipt of this very run, shard and
   * log, in the section its policy names.
   */
  lemma ManifestCoversRedShards(input: ProofInput, red: string -> bool, wellFormed: Manifest -> bool, k: nat)
    requires BuildProof(input, red, wellFormed).manifest.Some?
    requires 1 <= k <= SHARDS && LogOf(input, k).Some? && red(LogOf(input, k).value)
    ensures var proof := BuildProof(input, red, wellFormed);
      && proof.selected.Some?
      && proof.manifest.value.policy == FullWithReleases(SectionSha256(AsWritten(proof.selected.value)))
      && CoversShard(proof.selected.value, k, RunOf(input), LogOf(input, k).value)
  {
    hide BuildProof, SectionOf, CoversShard, RunOf, LogOf, ReceiptOf, Covered, ShardBound, WebOutcome, Green,
      OnlyKnownFacts, WantOf, CoveredFiles, RanFiles, Checks, JudgeWebBuild;
    ManifestIff(input, red, wellFormed);
    SectionCovers(RunOf(input), LogsOf(input), ReceiptsOf(input), red, k);
  }

  lemma SectionCovers(run: Run, logs: Logs, receipts: Receipts, red: string -> bool, k: nat)
    requires 1 <= k <= SHARDS && logs(k).Some? && red(logs(k).value)
    requires SectionOf(run, logs, receipts, red).1 == []
    ensures var section := SectionOf(run, logs, receipts, red).0;
      section.Some? && CoversShard(section.value, k, run, logs(k).value)
  {
    hide ReleasedUpTo, CoversShard, SectionFrom;
    var ks := ReleasedUpTo(SHARDS, logs, receipts, red);
    assert k in ks;
    var i :| 0 <= i < |ks| && ks[i] == k;
    ListedCovers(ks, run, logs, receipts, i);
  }

  lemma ListedCovers(ks: seq<nat>, run: Run, logs: Logs, receipts: Receipts, i: nat)
    requires i < |ks| && logs(ks[i]).Some? && SectionFrom(ks, run, logs, receipts).1 == []
    ensures var section := SectionFrom(ks, run, logs, receipts).0;
      section.Some? && CoversShard(section.value, ks[i], run, logs(ks[i]).value)
  {
    hide Releases, ReceiptProblems, ParseReceipt, ListsRelease, Responsibilities, Accepted, Parsed, ProblemsOf;
    NoProblemsOf(ks, run, logs, receipts);
    ReleasedReceipts(ks, run, logs, receipts);
    var rs := Parsed(ks, receipts);
    DigestsKnown(rs);
    OneResponsibility(rs, i);
    ListedReleases(rs[i], receipts(ks[i]), rs[i].responsibilityDigest.value, ks[i], run, logs);
    var section := SectionFrom(ks, run, logs, receipts).0;
    assert section.value.receipts[i] == Listed(rs[i].shard, ReceiptSha256(rs[i]), rs[i]);
  }

  lemma ListedReleases(r: ShardReceipt, raw: Raw, responsibility: string, k: nat, run: Run, logs: Logs)
    requires raw == Fields(r) && Releases(raw, BoundFor(k, run, logs)) && r.responsibilityDigest == Some(responsibility)
    requires logs(k).Some?
    ensures ListsRelease(Listed(r.shard, ReceiptSha256(r), r), responsibility, k, run, logs(k).value)
  {
    hide Lower, IsSha, IsDigest;
  }

  /**
   * The section delivered with a manifest is the one its policy names, and passes for whoever reads it back exactly
   * unchanged and exactly with this run and attempt.
   */
  lemma ManifestSectionReadsBack(input: ProofInput, red: string -> bool, wellFormed: Manifest -> bool, raw: RawSection,
      runId: int, attempt: int)
    requires var proof := BuildProof(input, red, wellFormed); proof.manifest.Some? && proof.selected.Some?
    ensures var proof := BuildProof(input, red, wellFormed);
      && proof.manifest.value.policy.FullWithReleases?
      && (SectionProblems(raw, proof.manifest.value.policy.section,
        Run(runId, attempt, proof.manifest.value.checkoutSha)) == [] <==>
          raw == AsWritten(proof.selected.value) && runId == input.run.runId && attempt == input.run.attempt)
  {
    hide BuildProof, SectionOf, Covered, ShardBound, WebOutcome, Green, OnlyKnownFacts, WantOf, TestedSha, LogOf,
      ReceiptOf, CoveredFiles, RanFiles, Checks, JudgeWebBuild, SectionProblems, AsWritten, Lower;
    ManifestIff(input, red, wellFormed);
    SectionRoundTrip(RunOf(input), LogsOf(input), ReceiptsOf(input), red, raw,
      Run(runId, attempt, TestedSha(input.run)));
  }

  /** A manifest made from the jobs' own results means the desktop job really ran. */
  lemma ManifestMeansDesktopRan(input: ProofInput, raw: map<string, Need>, red: string -> bool,
      wellFormed: Manifest -> bool)
    requires input.needs == ProofNeeds(raw)
    requires BuildProof(input, red, wellFormed).manifest.Some?
    ensures "desktop" in raw && raw["desktop"] == Need("success", Some("true"))
  {
    hide BuildProof, ManifestOf, SectionIn, Covered, ShardBound, WebOutcome, OnlyKnownFacts, WantOf, TestedSha;
    ManifestIff(input, red, wellFormed);
    assert "desktop" in JOBS by { assert JOBS[3] == "desktop"; }
    assert Green(input, "desktop");
  }
}
