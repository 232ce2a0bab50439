/**
 * The two readers of the release receipts: the section a coverage proof carries (scripts/ci-proof-artifact.ts) and the
 * check job's gate (scripts/ci-selected-verdict.ts).
 */
module SelectedGate {
  import opened Sequences
  import opened Text
  import opened SelectedReceipts

  const SHARDS := 8

  // ---- receipts of a list of shards ----

  type Receipts = nat -> Raw
  type Logs = nat -> Option<string>

  function BoundFor(k: nat, run: Run, logs: Logs): Bound {
    Bound(k, run, logs(k))
  }

  function ProblemsOf(ks: seq<nat>, run: Run, logs: Logs, receipts: Receipts): seq<Problem> {
    if ks == [] then []
    else ReceiptProblems(receipts(ks[0]), BoundFor(ks[0], run, logs)) + ProblemsOf(ks[1..], run, logs, receipts)
  }

  function Parsed(ks: seq<nat>, receipts: Receipts): seq<ShardReceipt> {
    if ks == [] then []
    else (match ParseReceipt(receipts(ks[0])) case Some(r) => [r] case None => []) + Parsed(ks[1..], receipts)
  }

  /** The receipts of the listed shards that have nothing against them. */
  function Accepted(ks: seq<nat>, run: Run, logs: Logs, receipts: Receipts): seq<ShardReceipt> {
    if ks == [] then []
    else
      (if ReceiptProblems(receipts(ks[0]), BoundFor(ks[0], run, logs)) == [] && ParseReceipt(receipts(ks[0])).Some?
       then [ParseReceipt(receipts(ks[0])).value] else [])
      + Accepted(ks[1..], run, logs, receipts)
  }

  function DigestsOf(rs: seq<ShardReceipt>): seq<Option<string>> {
    if rs == [] then [] else [rs[0].responsibilityDigest] + DigestsOf(rs[1..])
  }

  function Responsibilities(rs: seq<ShardReceipt>): seq<Option<string>> {
    Dedup(DigestsOf(rs))
  }

  // ---- the section of the proof ----

  datatype ReceiptDigest = ReceiptSha256(receipt: ShardReceipt)

  datatype Listed = Listed(shard: int, digest: ReceiptDigest, receipt: ShardReceipt)
  datatype Section = Section(runId: int, attempt: int, head: string, responsibilityDigest: string,
    receipts: seq<Listed>)

  function ListAll(rs: seq<ShardReceipt>): (r: seq<Listed>)
    ensures |r| == |rs| && forall i :: 0 <= i < |rs| ==> r[i] == Listed(rs[i].shard, ReceiptSha256(rs[i]), rs[i])
  {
    seq(|rs|, i requires 0 <= i < |rs| => Listed(rs[i].shard, ReceiptSha256(rs[i]), rs[i]))
  }

  /** A shard that ended green although its log shows failures, or whose receipt claims it was released. */
  predicate Released(k: nat, logs: Logs, receipts: Receipts, red: string -> bool) {
    (logs(k).Some? && red(logs(k).value)) || ClaimsApplied(receipts(k))
  }

  function ReleasedUpTo(m: nat, logs: Logs, receipts: Receipts, red: string -> bool): (r: seq<nat>)
    ensures forall i, j :: 0 <= i < j < |r| ==> r[i] < r[j]
    ensures forall k :: k in r <==> 1 <= k <= m && Released(k, logs, receipts, red)
    ensures forall i :: 0 <= i < |r| ==> 1 <= r[i] <= m
  {
    if m == 0 then []
    else
      ReleasedUpTo(m - 1, logs, receipts, red)
      + if Released(m, logs, receipts, red) then [m] else []
  }

  /** What becomes of the good receipts and the problems found with the others. */
  function SectionOn(run: Run, ok: seq<ShardReceipt>, found: seq<Problem>): (Option<Section>, seq<Problem>) {
    var digests := Responsibilities(ok);
    var resp := if digests == [] then None else digests[0];
    var problems := found
      + (if |digests| > 1 then [SeveralResponsibilities] else [])
      + (if ok != [] && resp.None? then [NoResponsibility] else []);
    if problems != [] || resp.None? then (None, problems)
    else (Some(Section(run.runId, run.attempt, run.head, resp.value, ListAll(ok))), problems)
  }

  function SectionFrom(ks: seq<nat>, run: Run, logs: Logs, receipts: Receipts): (Option<Section>, seq<Problem>) {
    SectionOn(run, Accepted(ks, run, logs, receipts), ProblemsOf(ks, run, logs, receipts))
  }

  /** `selectedSectionOf`. */
  function SectionOf(run: Run, logs: Logs, receipts: Receipts, red: string -> bool): (Option<Section>, seq<Problem>) {
    SectionFrom(ReleasedUpTo(SHARDS, logs, receipts, red), run, logs, receipts)
  }

  /** `selectedSectionOf` as written: one pass over the shards, collecting problems and good receipts. */
  method CollectSection(run: Run, logs: Logs, receipts: Receipts, red: string -> bool)
    returns (section: Option<Section>, problems: seq<Problem>)
    ensures (section, problems) == SectionOf(run, logs, receipts, red)
  {
    var ok;
    problems, ok := CollectReceipts(run, logs, receipts, red);
    assert SectionOn(run, ok, problems) == SectionOf(run, logs, receipts, red);
    hide SectionOf, Responsibilities, ListAll;
    var digests := Responsibilities(ok);
    var resp := if digests == [] then None else digests[0];
    problems := problems + if |digests| > 1 then [SeveralResponsibilities] else [];
    problems := problems + if ok != [] && resp.None? then [NoResponsibility] else [];
    section := if problems != [] || resp.None? then None
      else Some(Section(run.runId, run.attempt, run.head, resp.value, ListAll(ok)));
  }

  method CollectReceipts(run: Run, logs: Logs, receipts: Receipts, red: string -> bool)
    returns (problems: seq<Problem>, ok: seq<ShardReceipt>)
    ensures problems == ProblemsOf(ReleasedUpTo(SHARDS, logs, receipts, red), run, logs, receipts)
    ensures ok == Accepted(ReleasedUpTo(SHARDS, logs, receipts, red), run, logs, receipts)
  {
    problems, ok := [], [];
    assert ReleasedUpTo(0, logs, receipts, red) == [];
    assert ProblemsOf([], run, logs, receipts) == [] && Accepted([], run, logs, receipts) == [];
    hide *;
    for k := 0 to SHARDS
      invariant problems == ProblemsOf(ReleasedUpTo(k, logs, receipts, red), run, logs, receipts)
      invariant ok == Accepted(ReleasedUpTo(k, logs, receipts, red), run, logs, receipts)
    {
      ReceiptsStep(k, run, logs, receipts, red);
      if Released(k + 1, logs, receipts, red) {
        var bad := ReceiptProblems(receipts(k + 1), BoundFor(k + 1, run, logs));
        var parsed := ParseReceipt(receipts(k + 1));
        problems := problems + bad;
        if bad == [] && parsed.Some? { ok := ok + [parsed.value]; }
      }
    }
  }

  lemma ReceiptsStep(k: nat, run: Run, logs: Logs, receipts: Receipts, red: string -> bool)
    ensures var before, after, raw :=
      ReleasedUpTo(k, logs, receipts, red), ReleasedUpTo(k + 1, logs, receipts, red), receipts(k + 1);
      if Released(k + 1, logs, receipts, red) then
        var bad := ReceiptProblems(raw, BoundFor(k + 1, run, logs));
        && ProblemsOf(after, run, logs, receipts) == ProblemsOf(before, run, logs, receipts) + bad
        && Accepted(after, run, logs, receipts) == Accepted(before, run, logs, receipts)
             + if bad == [] && ParseReceipt(raw).Some? then [ParseReceipt(raw).value] else []
      else after == before
  {
    hide ReceiptProblems, ParseReceipt, Released, ProblemsOf, Accepted;
    ProblemsSnoc(ReleasedUpTo(k, logs, receipts, red), k + 1, run, logs, receipts);
  }

  lemma ProblemsSnoc(ks: seq<nat>, k: nat, run: Run, logs: Logs, receipts: Receipts)
    ensures ProblemsOf(ks + [k], run, logs, receipts) ==
      ProblemsOf(ks, run, logs, receipts) + ReceiptProblems(receipts(k), BoundFor(k, run, logs))
    ensures Accepted(ks + [k], run, logs, receipts) == Accepted(ks, run, logs, receipts)
      + if ReceiptProblems(receipts(k), BoundFor(k, run, logs)) == [] && ParseReceipt(receipts(k)).Some?
        then [ParseReceipt(receipts(k)).value] else []
  {
    hide ReceiptProblems, ParseReceipt;
    if ks == [] {
      assert ks + [k] == [k];
    } else {
      assert (ks + [k])[1..] == ks[1..] + [k];
      ProblemsSnoc(ks[1..], k, run, logs, receipts);
    }
  }

  // ---- the gate of the check job ----

  datatype GateVerdict = GateVerdict(mode: GateMode, run: Run, responsibilityDigest: Option<string>,
    outOfScope: seq<Failure>, shards: seq<(int, ReceiptDigest)>)

  /** A claim counts unless it can be read and belongs to another attempt. */
  predicate CountedClaim(raw: Raw, attempt: int) {
    ClaimsApplied(raw) && (ParseReceipt(raw).Some? ==> ParseReceipt(raw).value.attempt == attempt)
  }

  predicate GateReleases(k: nat, run: Run, logs: Logs, receipts: Receipts, red: string -> bool) {
    (logs(k).Some? && red(logs(k).value)) || CountedClaim(receipts(k), run.attempt)
  }

  /** The downloaded logs and receipts, by shard number, in the order they were read. */
  datatype Download = Download(logKeys: seq<nat>, receiptKeys: seq<nat>, logs: Logs, receipts: Receipts)

  /** The maps hold something for exactly the shards that were downloaded. */
  ghost predicate WellRead(d: Download) {
    && (forall k :: d.logs(k).Some? <==> k in d.logKeys)
    && (forall k :: !d.receipts(k).Undefined? <==> k in d.receiptKeys)
  }

  function NatOrder(): (nat, nat) -> bool {
    (a, b) => a <= b
  }

  function ReleasedInGate(d: Download, run: Run, red: string -> bool): seq<nat> {
    var failed := Filter(d.logKeys, k => d.logs(k).Some? && red(d.logs(k).value));
    var claimed := Filter(d.receiptKeys, k => CountedClaim(d.receipts(k), run.attempt));
    Sort(Dedup(failed + claimed), NatOrder())
  }

  function FailuresOf(rs: seq<ShardReceipt>): seq<Failure> {
    if rs == [] then [] else rs[0].outOfScope + FailuresOf(rs[1..])
  }

  function Digests(rs: seq<ShardReceipt>): (r: seq<(int, ReceiptDigest)>)
    ensures |r| == |rs| && forall i :: 0 <= i < |rs| ==> r[i] == (rs[i].shard, ReceiptSha256(rs[i]))
  {
    seq(|rs|, i requires 0 <= i < |rs| => (rs[i].shard, ReceiptSha256(rs[i])))
  }

  function GateFrom(ks: seq<nat>, mode: GateMode, run: Run, logs: Logs, receipts: Receipts)
    : (Option<GateVerdict>, seq<Problem>)
  {
    if ks == [] then (None, [])
    else
      var ok := Parsed(ks, receipts);
      var digests := Responsibilities(ok);
      var problems := ProblemsOf(ks, run, logs, receipts)
        + (if |digests| > 1 then [SeveralResponsibilities] else [])
        + (if mode != GateMode.On then [GateNotOn] else []);
      (Some(GateVerdict(mode, run, if digests == [] then None else digests[0], Dedup(FailuresOf(ok)), Digests(ok))),
        problems)
  }

  /** `gateVerdict`. */
  function Gate(d: Download, mode: GateMode, run: Run, red: string -> bool): (Option<GateVerdict>, seq<Problem>) {
    GateFrom(ReleasedInGate(d, run, red), mode, run, d.logs, d.receipts)
  }

  /** The gate's own loop: failures listed once, in the order they are met. */
  method CollectOutOfScope(rs: seq<ShardReceipt>) returns (outOfScope: seq<Failure>)
    ensures outOfScope == Dedup(FailuresOf(rs))
  {
    hide FailuresOf;
    var all, seen := FailuresOf(rs), {};
    outOfScope := [];
    for i := 0 to |all|
      invariant outOfScope == Dedup(all[..i]) && seen == Elements(outOfScope)
    {
      assert all[..i + 1][..i] == all[..i];
      if all[i] !in seen {
        seen := seen + {all[i]};
        outOfScope := outOfScope + [all[i]];
      }
    }
    assert all[..|all|] == all;
  }

  // ---- the two agree ----

  lemma {:induction false} NoProblemsOf(ks: seq<nat>, run: Run, logs: Logs, receipts: Receipts)
    ensures ProblemsOf(ks, run, logs, receipts) == [] <==>
      forall i :: 0 <= i < |ks| ==> Releases(receipts(ks[i]), BoundFor(ks[i], run, logs))
  {
    hide ReceiptProblems, Releases;
    if ks != [] {
      NoReceiptProblems(receipts(ks[0]), BoundFor(ks[0], run, logs));
      NoProblemsOf(ks[1..], run, logs, receipts);
      assert ks == [ks[0]] + ks[1..];
    }
  }

  /** When every listed shard is released, both readers keep the same receipts: one per shard, in shard order. */
  lemma {:induction false} ReleasedReceipts(ks: seq<nat>, run: Run, logs: Logs, receipts: Receipts)
    requires forall i :: 0 <= i < |ks| ==> Releases(receipts(ks[i]), BoundFor(ks[i], run, logs))
    ensures Accepted(ks, run, logs, receipts) == Parsed(ks, receipts)
    ensures |Parsed(ks, receipts)| == |ks|
    ensures forall i :: 0 <= i < |ks| ==>
      receipts(ks[i]) == Fields(Parsed(ks, receipts)[i]) && Parsed(ks, receipts)[i].responsibilityDigest.Some?
  {
    hide ReceiptProblems;
    if ks != [] {
      NoReceiptProblems(receipts(ks[0]), BoundFor(ks[0], run, logs));
      ReleasedReceipts(ks[1..], run, logs, receipts);
    }
  }

  lemma {:induction false} DigestsKnown(rs: seq<ShardReceipt>)
    requires forall i :: 0 <= i < |rs| ==> rs[i].responsibilityDigest.Some?
    ensures forall d :: d in DigestsOf(rs) ==> d.Some?
    ensures rs != [] ==> Responsibilities(rs) != []
  {
    if rs != [] {
      DigestsKnown(rs[1..]);
      assert DigestsOf(rs)[0] in DigestsOf(rs);
      assert DigestsOf(rs)[0] in Responsibilities(rs);
    }
  }

  /** No receipt of another attempt still claims a release. */
  ghost predicate NoStaleClaims(d: Download, run: Run) {
    forall k :: 1 <= k <= SHARDS && ClaimsApplied(d.receipts(k)) ==> CountedClaim(d.receipts(k), run.attempt)
  }

  /** The gate releases no shard that the run does not have. */
  ghost predicate NoStrayShards(d: Download, run: Run, red: string -> bool) {
    forall k: nat :: GateReleases(k, run, d.logs, d.receipts, red) ==> 1 <= k <= SHARDS
  }

  /** The gate goes through exactly the shards that are released to it, in order. */
  lemma InGate(d: Download, run: Run, red: string -> bool)
    requires WellRead(d)
    ensures forall k: nat :: k in ReleasedInGate(d, run, red) <==> GateReleases(k, run, d.logs, d.receipts, red)
    ensures SortedBy(ReleasedInGate(d, run, red), NatOrder()) && Distinct(ReleasedInGate(d, run, red))
  {
    hide CountedClaim;
    var failed := Filter(d.logKeys, k => d.logs(k).Some? && red(d.logs(k).value));
    var claimed := Filter(d.receiptKeys, k => CountedClaim(d.receipts(k), run.attempt));
    var mine := Dedup(failed + claimed);
    NatOrderIsTotal();
    SortSorts(mine, NatOrder());
    PermutationDistinct(mine, Sort(mine, NatOrder()));
    forall k: nat ensures k in mine <==> GateReleases(k, run, d.logs, d.receipts, red) {
      assert k in mine <==> k in failed || k in claimed;
      CountedIsThere(d.receipts(k), run.attempt);
    }
  }

  lemma CountedIsThere(raw: Raw, attempt: int)
    ensures CountedClaim(raw, attempt) ==> !raw.Undefined?
  {}

  lemma SameReleased(d: Download, run: Run, red: string -> bool)
    requires WellRead(d) && NoStrayShards(d, run, red) && NoStaleClaims(d, run)
    ensures ReleasedInGate(d, run, red) == ReleasedUpTo(SHARDS, d.logs, d.receipts, red)
  {
    hide ReleasedInGate, CountedClaim, ClaimsApplied, WellRead;
    var mine, theirs := ReleasedInGate(d, run, red), ReleasedUpTo(SHARDS, d.logs, d.receipts, red);
    InGate(d, run, red);
    forall k: nat ensures k in mine <==> k in theirs { CountedClaims(d.receipts(k), run.attempt); }
    DistinctPermutation(mine, theirs);
    NatOrderIsTotal();
    SortedUnique(mine, theirs, NatOrder());
  }

  lemma CountedClaims(raw: Raw, attempt: int)
    ensures CountedClaim(raw, attempt) ==> ClaimsApplied(raw)
  {}

  lemma NatOrderIsTotal()
    ensures TotalOrder(NatOrder())
  {}

  /** Both release nothing, or both release the same shards on the same receipts for the same responsibility. */
  predicate SameReleases(section: Option<Section>, verdict: Option<GateVerdict>) {
    && (section.Some? <==> verdict.Some?)
    && (section.Some? ==>
          && verdict.value.responsibilityDigest == Some(section.value.responsibilityDigest)
          && |verdict.value.shards| == |section.value.receipts|
          && forall i :: 0 <= i < |section.value.receipts| ==>
               verdict.value.shards[i] == (section.value.receipts[i].shard, section.value.receipts[i].digest))
  }

  /**
   * The same logs and receipts, read in the check job with the gate on. Neither the proof's section nor the gate finds
   * a problem, and both release the same, exactly when the gate finds none, no claim of another attempt is lying
   * around, and no shard is released that the run does not have. Short of such a shard the two find problems together,
   * except for a left-over claim.
   */
  lemma SectionAndGateAgree(d: Download, run: Run, red: string -> bool)
    requires WellRead(d)
    ensures var (section, problems), (verdict, refusals) :=
      SectionOf(run, d.logs, d.receipts, red), Gate(d, GateMode.On, run, red);
      && (problems == [] && refusals == [] && SameReleases(section, verdict) <==>
          refusals == [] && NoStaleClaims(d, run) && NoStrayShards(d, run, red))
      && (problems == [] && NoStrayShards(d, run, red) <==>
          refusals == [] && NoStaleClaims(d, run) && NoStrayShards(d, run, red))
  {
    hide Releases, ReleasedUpTo, ReleasedInGate, SectionFrom, GateFrom, SameReleases, NoStaleClaims, NoStrayShards,
      WellRead;
    var ks, gs := ReleasedUpTo(SHARDS, d.logs, d.receipts, red), ReleasedInGate(d, run, red);
    if SectionFrom(ks, run, d.logs, d.receipts).1 == [] { NoStaleIfClean(d, run, red); }
    if NoStaleClaims(d, run) && NoStrayShards(d, run, red) {
      SameReleased(d, run, red);
      FromSameShards(ks, run, d.logs, d.receipts);
    }
    var section, verdict := SectionFrom(ks, run, d.logs, d.receipts).0,
      GateFrom(gs, GateMode.On, run, d.logs, d.receipts).0;
    if SectionFrom(ks, run, d.logs, d.receipts).1 == [] && GateFrom(gs, GateMode.On, run, d.logs, d.receipts).1 == []
      && SameReleases(section, verdict) {
      NoStrayIfSame(d, run, red);
    }
  }

  lemma NoStaleIfClean(d: Download, run: Run, red: string -> bool)
    requires SectionOf(run, d.logs, d.receipts, red).1 == []
    ensures NoStaleClaims(d, run)
  {
    hide Releases, ReleasedUpTo, Accepted, ProblemsOf, ParseReceipt;
    var ks := ReleasedUpTo(SHARDS, d.logs, d.receipts, red);
    NoProblemsOf(ks, run, d.logs, d.receipts);
    forall k | 1 <= k <= SHARDS && ClaimsApplied(d.receipts(k)) ensures CountedClaim(d.receipts(k), run.attempt) {
      assert k in ks;
      var i :| 0 <= i < |ks| && ks[i] == k;
      ReleasedIsCounted(d.receipts(k), BoundFor(k, run, d.logs));
    }
  }

  lemma NoStrayIfSame(d: Download, run: Run, red: string -> bool)
    requires WellRead(d)
    requires var (section, problems), (verdict, refusals) :=
      SectionOf(run, d.logs, d.receipts, red), Gate(d, GateMode.On, run, red);
      problems == [] && refusals == [] && SameReleases(section, verdict)
    ensures NoStrayShards(d, run, red)
  {
    hide Releases, ReleasedUpTo, ReleasedInGate, SectionFrom, GateFrom, WellRead, GateReleases;
    var ks, gs := ReleasedUpTo(SHARDS, d.logs, d.receipts, red), ReleasedInGate(d, run, red);
    InGate(d, run, red);
    SectionLists(ks, run, d.logs, d.receipts);
    GateLists(gs, run, d.logs, d.receipts);
    forall k: nat | GateReleases(k, run, d.logs, d.receipts, red) ensures 1 <= k <= SHARDS {
      assert k in gs;
      var i :| 0 <= i < |gs| && gs[i] == k;
      assert ks[i] == k;
    }
  }

  lemma ShardOfReleased(raw: Raw, want: Bound, r: ShardReceipt)
    requires Releases(raw, want) && raw == Fields(r)
    ensures r.shard == want.shard
  {
    hide Lower, IsSha, IsDigest;
  }

  /** A section without problems lists the shards it was made from. */
  lemma SectionLists(ks: seq<nat>, run: Run, logs: Logs, receipts: Receipts)
    requires SectionFrom(ks, run, logs, receipts).1 == []
    ensures var section := SectionFrom(ks, run, logs, receipts).0;
      section.Some? ==>
        && |section.value.receipts| == |ks|
        && forall i :: 0 <= i < |ks| ==> section.value.receipts[i].shard == ks[i]
  {
    hide Releases, Responsibilities, Accepted, Parsed, ProblemsOf;
    NoProblemsOf(ks, run, logs, receipts);
    ReleasedReceipts(ks, run, logs, receipts);
    forall i | 0 <= i < |ks| ensures Parsed(ks, receipts)[i].shard == ks[i] {
      ShardOfReleased(receipts(ks[i]), BoundFor(ks[i], run, logs), Parsed(ks, receipts)[i]);
    }
  }

  /** So does a verdict of the gate without refusals. */
  lemma GateLists(gs: seq<nat>, run: Run, logs: Logs, receipts: Receipts)
    requires GateFrom(gs, GateMode.On, run, logs, receipts).1 == []
    ensures var verdict := GateFrom(gs, GateMode.On, run, logs, receipts).0;
      if gs == [] then verdict.None?
      else
        && verdict.Some? && |verdict.value.shards| == |gs|
        && forall i :: 0 <= i < |gs| ==> verdict.value.shards[i].0 == gs[i]
  {
    hide Releases, Responsibilities, Accepted, Parsed, ProblemsOf, FailuresOf, Dedup;
    NoProblemsOf(gs, run, logs, receipts);
    if gs != [] && ProblemsOf(gs, run, logs, receipts) == [] {
      ReleasedReceipts(gs, run, logs, receipts);
      forall i | 0 <= i < |gs| ensures Parsed(gs, receipts)[i].shard == gs[i] {
        ShardOfReleased(receipts(gs[i]), BoundFor(gs[i], run, logs), Parsed(gs, receipts)[i]);
      }
    }
  }

  lemma ReleasedIsCounted(raw: Raw, want: Bound)
    requires Releases(raw, want)
    ensures CountedClaim(raw, want.run.attempt)
  {
    hide Lower, IsSha, IsDigest;
  }

  lemma FromSameShards(ks: seq<nat>, run: Run, logs: Logs, receipts: Receipts)
    ensures var (section, problems), (verdict, refusals) :=
      SectionFrom(ks, run, logs, receipts), GateFrom(ks, GateMode.On, run, logs, receipts);
      && (problems == [] <==> refusals == [])
      && (problems == [] ==> SameReleases(section, verdict))
  {
    hide Releases, FailuresOf, ParseReceipt, ReceiptProblems;
    NoProblemsOf(ks, run, logs, receipts);
    if ks != [] && ProblemsOf(ks, run, logs, receipts) == [] {
      ReleasedReceipts(ks, run, logs, receipts);
      var rs := Parsed(ks, receipts);
      DigestsKnown(rs);
      assert Responsibilities(rs)[0] in Responsibilities(rs);
      assert Responsibilities(rs)[0].Some?;
    }
  }

  /** A gate whose mode is not on refuses whenever anything is to be released, and has nothing else to say. */
  lemma GateOnlyWhenOn(d: Download, mode: GateMode, run: Run, red: string -> bool)
    requires WellRead(d) && mode != GateMode.On
    ensures var (verdict, refusals) := Gate(d, mode, run, red);
      if exists k: nat :: GateReleases(k, run, d.logs, d.receipts, red) then GateNotOn in refusals
      else verdict.None? && refusals == []
  {
    hide GateReleases, ReleasedInGate, WellRead, Responsibilities, ProblemsOf, FailuresOf, Parsed;
    InGate(d, run, red);
    if k: nat :| GateReleases(k, run, d.logs, d.receipts, red) {
      assert k in ReleasedInGate(d, run, red);
    } else {
      NothingIn(ReleasedInGate(d, run, red));
    }
  }

  /**
   * A verdict names the gate's mode and run, and each failure that a parsed receipt of a released shard lists, once.
   */
  lemma VerdictSays(d: Download, mode: GateMode, run: Run, red: string -> bool)
    requires WellRead(d) && Gate(d, mode, run, red).0.Some?
    ensures var v := Gate(d, mode, run, red).0.value;
      && v.mode == mode && v.run == run && Distinct(v.outOfScope)
      && forall f :: f in v.outOfScope <==> exists k: nat ::
           GateReleases(k, run, d.logs, d.receipts, red) && ReceiptLists(d.receipts(k), f)
  {
    hide GateReleases, ReleasedInGate, WellRead, Responsibilities, ProblemsOf, FailuresOf, Parsed, ReceiptLists;
    InGate(d, run, red);
    var ks := ReleasedInGate(d, run, red);
    forall f ensures f in FailuresOf(Parsed(ks, d.receipts)) <==>
      exists k :: k in ks && ReceiptLists(d.receipts(k), f) {
      FailuresMembers(ks, d.receipts, f);
    }
  }

  predicate ReceiptLists(raw: Raw, f: Failure) {
    ParseReceipt(raw).Some? && f in ParseReceipt(raw).value.outOfScope
  }

  lemma {:induction false} FailuresMembers(ks: seq<nat>, receipts: Receipts, f: Failure)
    ensures f in FailuresOf(Parsed(ks, receipts)) <==> exists k :: k in ks && ReceiptLists(receipts(k), f)
  {
    hide ParseReceipt;
    if ks != [] {
      FailuresMembers(ks[1..], receipts, f);
      assert ks == [ks[0]] + ks[1..];
      var rest := Parsed(ks[1..], receipts);
      if ParseReceipt(receipts(ks[0])).Some? {
        var r := ParseReceipt(receipts(ks[0])).value;
        assert ([r] + rest)[1..] == rest;
      } else {
        assert [] + rest == rest;
      }
    }
  }

  // ---- where they differ ----

  /**
   * A receipt that an earlier attempt left behind: when nothing else is released, the gate passes it over and the proof
   * refuses.
   */
  lemma StaleClaimSplitsThem(d: Download, run: Run, red: string -> bool)
    requires WellRead(d) && !NoStaleClaims(d, run)
    requires forall k: nat :: !GateReleases(k, run, d.logs, d.receipts, red)
    ensures Gate(d, GateMode.On, run, red) == (None, []) && SectionOf(run, d.logs, d.receipts, red).1 != []
  {
    hide SectionOf, NoStaleClaims, ReleasedInGate, GateReleases, WellRead;
    InGate(d, run, red);
    NothingIn(ReleasedInGate(d, run, red));
    SectionAndGateAgree(d, run, red);
  }

  lemma NothingIn<T>(xs: seq<T>)
    requires forall x :: x !in xs
    ensures xs == []
  {
    if xs != [] { NotEmpty(xs); }
  }

  lemma NotEmpty<T>(xs: seq<T>)
    requires xs != []
    ensures xs[0] in xs
  {}

  const HEAD: string := seq(40, _ => 'a')
  const SOME_DIGEST: string := SHA256 + seq(64, _ => '0')
  const STALE: ShardReceipt :=
    ShardReceipt(RECEIPT_VERSION, GateMode.On, 1, 7, 1, HEAD, SOME_DIGEST, Some(SOME_DIGEST), LogSha256(""), 1, true,
      true, "", [])
  const LEFTOVER: Download :=
    Download([1], [1], k => if k == 1 then Some("") else None, k => if k == 1 then Fields(STALE) else Undefined)

  lemma SomeDigestIsOne()
    ensures IsDigest(SOME_DIGEST)
  {
    assert SOME_DIGEST[|SHA256|..] == seq(64, _ => '0');
  }

  /** The left-over receipt is one that the parser takes, from attempt 1 of the run. */
  lemma StaleIsAReceipt()
    ensures ParseReceipt(Fields(STALE)) == Some(STALE)
  {
    SomeDigestIsOne();
    assert IsSha(HEAD);
  }

  /** Such a download exists: shard 1's applied receipt of attempt 1, read during attempt 2. */
  lemma StaleClaimExists(red: string -> bool)
    requires !red("")
    ensures WellRead(LEFTOVER) && !NoStaleClaims(LEFTOVER, Run(7, 2, HEAD))
    ensures forall k: nat :: !GateReleases(k, Run(7, 2, HEAD), LEFTOVER.logs, LEFTOVER.receipts, red)
  {
    hide ParseReceipt;
    StaleIsAReceipt();
    assert ClaimsApplied(LEFTOVER.receipts(1)) && !CountedClaim(LEFTOVER.receipts(1), 2);
  }

  function Stray(log: string): Download {
    Download([SHARDS + 1], [], k => if k == SHARDS + 1 then Some(log) else None, _ => Undefined)
  }

  /**
   * The red log of a shard that the run does not have: the proof never looks at it, the gate refuses for want of its
   * receipt.
   */
  lemma StrayShardSplitsThem(log: string, run: Run, red: string -> bool)
    requires red(log)
    ensures var d := Stray(log);
      WellRead(d) && NoStaleClaims(d, run) && SectionOf(run, d.logs, d.receipts, red).1 == []
        && Gate(d, GateMode.On, run, red).1 != []
  {
    hide ReleasedUpTo, ReleasedInGate;
    var d := Stray(log);
    assert WellRead(d);
    NothingIn(ReleasedUpTo(SHARDS, d.logs, d.receipts, red));
    InGate(d, run, red);
    var gs := ReleasedInGate(d, run, red);
    assert GateReleases(SHARDS + 1, run, d.logs, d.receipts, red);
    assert SHARDS + 1 in gs;
    assert gs[0] in gs;
    assert ReceiptProblems(d.receipts(gs[0]), BoundFor(gs[0], run, d.logs)) != [];
  }
}
