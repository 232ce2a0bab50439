/**
 * src/lib/ci-selected-verdict.ts: a shard that went red may be released by a receipt when none of its failures is in
 * the set of tests the pull request answers for, nor in what it changed. Digests are injective by construction.
 */
module SelectedReceipts {
  import opened Sequences
  import opened Text
  import opened RelatedPlan

  /** The digest of a log, or a text that has no digest's shape. */
  datatype LogDigest = LogSha256(log: string) | NotADigest

  datatype GateMode = Off | Observe | On

  datatype Failure = Failure(file: string, name: string)

  datatype ShardReceipt = ShardReceipt(
    version: int, mode: GateMode, shard: int, runId: int, attempt: int, head: string, planDigest: string,
    responsibilityDigest: Option<string>, logDigest: LogDigest, exitCode: int, allow: bool, applied: bool,
    reason: string, outOfScope: seq<Failure>)

  const RECEIPT_VERSION := 1

  // ---- the verdict on one red shard ----

  datatype VerdictInput = VerdictInput(
    responsibility: Option<Answerable>, failures: Option<seq<Failure>>, changed: Option<seq<string>>, complete: bool,
    steps: seq<string>)

  datatype Verdict = Verdict(allow: bool, reason: string, outOfScope: seq<Failure>)

  /** Paths are compared without a leading "./". */
  function Norm(p: string): string {
    if "./" <= p then p[2..] else p
  }

  lemma NormSays(p: string)
    ensures Norm("./" + p) == p
    ensures p == "" || p[0] != '.' ==> Norm(p) == p
    ensures |p| == 1 || (|p| > 1 && p[0] == '.' && p[1] != '/') ==> Norm(p) == p
  {
    assert ("./" + p)[2..] == p && ("./" + p)[..2] == "./";
  }

  function NormAll(paths: seq<string>): (r: seq<string>)
    ensures forall p :: p in r <==> exists q :: q in paths && Norm(q) == p
  {
    if paths == [] then []
    else
      assert forall q :: q in paths <==> q == paths[0] || q in paths[1..];
      [Norm(paths[0])] + NormAll(paths[1..])
  }

  predicate NotRed(step: string) {
    step in ["success", "skipped", "pending"]
  }

  function Deny(reason: string): Verdict {
    Verdict(false, reason, [])
  }

  function Normed(fs: seq<Failure>): (r: seq<Failure>)
    ensures |r| == |fs| && forall i :: 0 <= i < |fs| ==> r[i] == Failure(Norm(fs[i].file), fs[i].name)
  {
    seq(|fs|, i requires 0 <= i < |fs| => Failure(Norm(fs[i].file), fs[i].name))
  }

  /** `judgeSelected`; `isTest` and `isSelf` recognise test files and the verdict's own sources. */
  function Judge(x: VerdictInput, isTest: string -> bool, isSelf: string -> bool): Verdict {
    if x.responsibility.None? then Deny("no responsibility to check against")
    else if x.responsibility.value.All? then Deny("answers for all")
    else if exists s :: s in x.steps && !NotRed(s) then Deny("a step is red")
    else if !x.complete then Deny("the selected tests did not all run")
    else if x.failures.None? then Deny("failures not fully read")
    else if x.failures.value == [] then Deny("red without a failure")
    else if exists f :: f in x.failures.value && !isTest(Norm(f.file)) then Deny("a failure outside the test files")
    else if x.changed.None? then Deny("changes not read")
    else if exists p :: p in x.changed.value && isSelf(Norm(p)) then Deny("changes the verdict itself")
    else if exists f :: f in x.failures.value && Norm(f.file) in x.responsibility.value.tests
      then Deny("a failure it answers for")
    else if exists f :: f in x.failures.value && Norm(f.file) in NormAll(x.changed.value)
      then Deny("a failure in what it changed")
    else Verdict(true, "all failures out of scope", Dedup(Normed(x.failures.value)))
  }

  /** The loop at the end of `judgeSelected`: every failure once, in the order met. */
  method ListOutOfScope(failures: seq<Failure>) returns (outOfScope: seq<Failure>)
    ensures outOfScope == Dedup(Normed(failures))
  {
    hide Norm;
    var seen := {};
    outOfScope := [];
    for i := 0 to |failures|
      invariant outOfScope == Dedup(Normed(failures)[..i]) && seen == Elements(outOfScope)
    {
      var normed := Normed(failures);
      assert normed[..i + 1][..i] == normed[..i];
      var f := Failure(Norm(failures[i].file), failures[i].name);
      if f !in seen {
        seen := seen + {f};
        outOfScope := outOfScope + [f];
      }
    }
    assert Normed(failures)[..|failures|] == Normed(failures);
  }

  // ---- receipts ----

  datatype Run = Run(runId: int, attempt: int, head: string)

  datatype ShardInput = ShardInput(
    mode: GateMode, shard: int, exitCode: int, log: string, plan: Option<CiPlan>, planDigest: string,
    failures: Option<seq<Failure>>, complete: bool, changed: Option<seq<string>>, typecheck: string, run: Run)

  /** The injective fingerprints a receipt is bound with. */
  datatype Hashes = Hashes(plan: CiPlan -> string, answerable: Answerable -> string)

  ghost predicate Fingerprints(h: Hashes) {
    forall a :: IsDigest(h.answerable(a))
  }

  function Frozen(x: ShardInput, h: Hashes): Option<Answerable> {
    if x.plan.Some? && h.plan(x.plan.value) == x.planDigest then Some(x.plan.value.responsibility.tests) else None
  }

  /** The steps after the tests have not run yet; typecheck runs on shard 1 only. */
  function VerdictOn(x: ShardInput, h: Hashes, isTest: string -> bool, isSelf: string -> bool): Verdict {
    var steps := [if x.shard == 1 then x.typecheck else "skipped", "pending", "pending", "pending"];
    Judge(VerdictInput(Frozen(x, h), x.failures, x.changed, x.complete, steps), isTest, isSelf)
  }

  /** `shardReceipt`: what a red shard writes down. */
  function ReceiptFor(x: ShardInput, h: Hashes, isTest: string -> bool, isSelf: string -> bool): ShardReceipt {
    var resp, v := Frozen(x, h), VerdictOn(x, h, isTest, isSelf);
    ShardReceipt(RECEIPT_VERSION, x.mode, x.shard, x.run.runId, x.run.attempt, x.run.head, x.planDigest,
      if resp.Some? then Some(h.answerable(resp.value)) else None, LogSha256(x.log), x.exitCode,
      v.allow, x.mode == GateMode.On && v.allow, v.reason, v.outOfScope)
  }

  /**
   * A receipt as it comes back: absent, no object, an object with exactly the receipt's fields and their types, or
   * another object, of which only matters whether it says `applied: false`.
   */
  datatype Raw = Undefined | NotAnObject | Fields(receipt: ShardReceipt) | OtherObject(saysNotApplied: bool)

  predicate ClaimsApplied(raw: Raw) {
    match raw
    case Fields(r) => r.applied
    case OtherObject(saysNotApplied) => !saysNotApplied
    case _ => false
  }

  /**
   * Numbered from 1, with a full commit and digests that look like digests; applied only if allowed under mode on, for
   * a known responsibility.
   */
  predicate WellShaped(r: ShardReceipt) {
    && r.version == RECEIPT_VERSION && r.shard > 0 && r.runId > 0 && r.attempt > 0 && IsSha(r.head)
    && (r.responsibilityDigest.None? || IsDigest(r.responsibilityDigest.value)) && r.logDigest.LogSha256?
    && (r.applied ==> r.allow && r.mode == GateMode.On && r.responsibilityDigest.Some?)
  }

  /** `parseReceipt`. */
  function ParseReceipt(raw: Raw): (r: Option<ShardReceipt>)
    ensures r.Some? <==> raw.Fields? && WellShaped(raw.receipt)
    ensures r.Some? ==> raw == Fields(r.value)
  {
    match raw
    case Fields(r) =>
      if r.version != RECEIPT_VERSION || r.shard <= 0 || r.runId <= 0 || r.attempt <= 0 || !IsSha(r.head) then None
      else if r.responsibilityDigest.Some? && !IsDigest(r.responsibilityDigest.value) then None
      else if !r.logDigest.LogSha256? then None
      else if r.applied && !(r.allow && r.mode == GateMode.On && r.responsibilityDigest.Some?) then None
      else Some(r)
    case _ => None
  }

  datatype Problem =
    | NoReceipt(shard: int) | NotAReceipt(shard: int) | OtherShard | OtherRun | OtherHead | OtherLog | NotApplied
    | SeveralResponsibilities | NoResponsibility | GateNotOn

  datatype Bound = Bound(shard: int, run: Run, log: Option<string>)

  /** `receiptProblems`: does a receipt release this shard of this run on this log? */
  function ReceiptProblems(raw: Raw, want: Bound): seq<Problem> {
    if raw.Undefined? then [NoReceipt(want.shard)]
    else match ParseReceipt(raw)
      case None => [NotAReceipt(want.shard)]
      case Some(r) =>
        (if r.shard != want.shard then [OtherShard] else [])
        + (if r.runId != want.run.runId || r.attempt != want.run.attempt then [OtherRun] else [])
        + (if Lower(r.head) != Lower(want.run.head) then [OtherHead] else [])
        + (if want.log.None? || r.logDigest != LogSha256(want.log.value) then [OtherLog] else [])
        + (if !r.applied then [NotApplied] else [])
  }

  /** A well-formed receipt of this very shard, run, checkout and log that was applied. */
  predicate Releases(raw: Raw, want: Bound) {
    var parsed := ParseReceipt(raw);
    && parsed.Some? && parsed.value.applied
    && parsed.value.shard == want.shard
    && parsed.value.runId == want.run.runId && parsed.value.attempt == want.run.attempt
    && Lower(parsed.value.head) == Lower(want.run.head)
    && want.log.Some? && parsed.value.logDigest == LogSha256(want.log.value)
  }

  lemma NoReceiptProblems(raw: Raw, want: Bound)
    ensures ReceiptProblems(raw, want) == [] <==> Releases(raw, want)
    ensures NoReceipt(want.shard) in ReceiptProblems(raw, want) <==> raw.Undefined?
    ensures NotAReceipt(want.shard) in ReceiptProblems(raw, want) <==> !raw.Undefined? && ParseReceipt(raw).None?
  {
    hide Lower, IsSha, IsDigest;
  }

  /**
   * Every failure of a released shard is in a test file outside both what the pull request answers for and what it
   * changed.
   */
  predicate OutOfScope(x: ShardInput, h: Hashes, isTest: string -> bool, isSelf: string -> bool) {
    && x.plan.Some? && h.plan(x.plan.value) == x.planDigest && x.plan.value.responsibility.tests.Only?
    && (x.shard == 1 ==> x.typecheck in ["success", "skipped", "pending"]) && x.complete
    && x.failures.Some? && x.failures.value != [] && x.changed.Some?
    && (forall p :: p in x.changed.value ==> !isSelf(Norm(p)))
    && forall f :: f in x.failures.value ==>
         && isTest(Norm(f.file)) && Norm(f.file) !in x.plan.value.responsibility.tests.tests
         && forall p :: p in x.changed.value ==> Norm(p) != Norm(f.file)
  }

  lemma Harmless(step: string)
    ensures NotRed("skipped") && NotRed("pending")
    ensures NotRed(step) <==> step in ["success", "skipped", "pending"]
  {}

  /** A red shard is let go exactly when all its failures are out of scope. */
  lemma AllowedIffOutOfScope(x: ShardInput, h: Hashes, isTest: string -> bool, isSelf: string -> bool)
    ensures VerdictOn(x, h, isTest, isSelf).allow <==> OutOfScope(x, h, isTest, isSelf)
  {
    hide Norm, Normed, Dedup, NotRed;
    var steps := [if x.shard == 1 then x.typecheck else "skipped", "pending", "pending", "pending"];
    Harmless(x.typecheck);
    assert (exists s :: s in steps && !NotRed(s)) <==> x.shard == 1 && !NotRed(x.typecheck) by {
      assert steps[0] in steps;
    }
  }

  /**
   * A receipt names the shard, the run and the log it was written for, and the frozen responsibility if that can be
   * read. It allows exactly when all failures are out of scope, and then lists each of them once; it counts as applied
   * only under mode on.
   */
  lemma ReceiptSays(x: ShardInput, h: Hashes, isTest: string -> bool, isSelf: string -> bool)
    ensures var r := ReceiptFor(x, h, isTest, isSelf);
      && r.version == 1 && r.mode == x.mode && r.shard == x.shard && r.exitCode == x.exitCode
      && r.runId == x.run.runId && r.attempt == x.run.attempt && r.head == x.run.head
      && r.planDigest == x.planDigest && r.logDigest == LogSha256(x.log)
      && r.responsibilityDigest == (match x.plan
           case None => None
           case Some(plan) =>
             if h.plan(plan) == x.planDigest then Some(h.answerable(plan.responsibility.tests)) else None)
      && (r.allow <==> OutOfScope(x, h, isTest, isSelf))
      && (r.applied <==> x.mode == GateMode.On && OutOfScope(x, h, isTest, isSelf))
      && (if r.allow then
            && Distinct(r.outOfScope)
            && forall f :: f in r.outOfScope <==>
                 exists g :: g in x.failures.value && f == Failure(Norm(g.file), g.name)
          else r.outOfScope == [] && r.reason != "")
  {
    hide Judge, OutOfScope;
    AllowedIffOutOfScope(x, h, isTest, isSelf);
    JudgeSays(VerdictInput(Frozen(x, h), x.failures, x.changed, x.complete,
      [if x.shard == 1 then x.typecheck else "skipped", "pending", "pending", "pending"]), isTest, isSelf);
  }

  lemma JudgeSays(x: VerdictInput, isTest: string -> bool, isSelf: string -> bool)
    ensures var v := Judge(x, isTest, isSelf);
      if v.allow then
        && x.failures.Some? && Distinct(v.outOfScope)
        && forall f :: f in v.outOfScope <==> exists g :: g in x.failures.value && f == Failure(Norm(g.file), g.name)
      else v.outOfScope == [] && v.reason != ""
  {
    hide Norm, NotRed, NormAll;
    if Judge(x, isTest, isSelf).allow {
      forall f ensures f in Dedup(Normed(x.failures.value)) <==>
        exists g :: g in x.failures.value && f == Failure(Norm(g.file), g.name) {
        NormedMembers(x.failures.value, f);
      }
    }
  }

  lemma NormedMembers(gs: seq<Failure>, f: Failure)
    ensures f in Normed(gs) <==> exists g :: g in gs && f == Failure(Norm(g.file), g.name)
  {
    hide Norm;
    var fs := Normed(gs);
    if f in fs {
      var i :| 0 <= i < |fs| && fs[i] == f;
      assert gs[i] in gs;
    }
    if g :| g in gs && f == Failure(Norm(g.file), g.name) {
      var i :| 0 <= i < |gs| && gs[i] == g;
      assert fs[i] == f;
    }
  }

  /** What a receipt may name at all. */
  predicate MayName(shard: int, run: Run) {
    shard > 0 && run.runId > 0 && run.attempt > 0 && IsSha(run.head)
  }

  /**
   * The receipt a shard writes is taken back exactly when the gate is on, the shard's failures are all out of scope,
   * and shard, run, attempt and head are what a receipt may name at all.
   */
  lemma ReceiptRoundTrip(x: ShardInput, h: Hashes, isTest: string -> bool, isSelf: string -> bool)
    requires Fingerprints(h)
    ensures ReceiptProblems(Fields(ReceiptFor(x, h, isTest, isSelf)), Bound(x.shard, x.run, Some(x.log))) == [] <==>
      (x.mode == GateMode.On && OutOfScope(x, h, isTest, isSelf) && MayName(x.shard, x.run))
  {
    hide Lower, IsSha, IsDigest, Judge;
    AllowedIffOutOfScope(x, h, isTest, isSelf);
    NoReceiptProblems(Fields(ReceiptFor(x, h, isTest, isSelf)), Bound(x.shard, x.run, Some(x.log)));
  }
}
