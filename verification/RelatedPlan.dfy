/**
 * scripts/ci-related-plan.ts: which tests one CI run executes, and which tests the pull request answers for. The
 * selector's proposal, the measured read map's proposal and the light selection are inputs; what the modes make of them
 * is `selectImpactedTests` of src/lib/ci-impact-select.ts.
 */
module RelatedPlan {
  import opened Sequences
  import opened Text
  import opened ShardPlan

  const SHARDS := 8

  // ---- src/lib/ci-impact-select.ts: what a proposal becomes under a mode ----

  datatype Mode = Off | Observe | On | Unknown

  /** `ciRelatedChecksMode` and `ciIoMapMode`: an unset variable observes, a value nobody knows is unknown. */
  function ModeOf(raw: string): Mode {
    if raw == "" || raw == "observe" then Observe
    else if raw == "off" then Off
    else if raw == "on" then On
    else Unknown
  }

  datatype Proposal = Proposal(tests: seq<string>, reasons: seq<string>, linked: seq<string>)

  datatype Selection = Selection(selected: bool, tests: seq<string>, proposed: Option<seq<string>>,
    fullReasons: seq<string>, linked: seq<string>)

  function Select(mode: Mode, p: Proposal, all: seq<string>): Selection {
    match mode
    case Unknown => Selection(false, all, None, ["unknown ciRelatedChecks"], [])
    case Off => Selection(false, all, None, ["ciRelatedChecks=off"], [])
    case _ =>
      var selected := mode == On && p.reasons == [];
      Selection(selected, if selected then p.tests else all, Some(p.tests), p.reasons, p.linked)
  }

  // ---- the facts one run's plan is made from ----

  datatype ReadMap = NoReadMap | Unusable(why: seq<string>) | Usable(proposal: Proposal)
  datatype LightSelection = LightSelection(tests: seq<string>, reasons: seq<string>)
  datatype LightSource = NoLight | LightFails(error: string) | LightPicks(selection: LightSelection)
  datatype SourceBranch = NoBranch | Branch(ref: string) | Unread(reason: string)

  /** `selectFails` and `readFails`: asked under these modes, the selector or the reading of the map throws. */
  datatype PlanFacts = PlanFacts(
    event: string, sha: string, mode: string, headRef: string,
    allTests: seq<string>, slow: seq<string>, proposal: Proposal, selectFails: set<Mode>, seconds: Durations,
    ioMode: string, readMap: ReadMap, readFails: set<Mode>,
    prHead: Option<string>, queueMode: Option<string>, runAttempt: nat, labels: seq<string>, light: LightSource,
    dispatchPr: Option<nat>, dispatchBranch: SourceBranch)

  datatype IoMapNote = IoMapNote(mode: string, used: bool, proposed: Option<nat>, picked: Option<nat>,
    reasons: seq<string>)

  datatype Scope = Full | Related | Light

  datatype Answerable = All | Only(tests: seq<string>)
  datatype Responsibility = Responsibility(tests: Answerable, fallbackReasons: seq<string>)

  datatype CiPlan = CiPlan(
    event: string, sha: string, mode: string, scope: Scope, light: Option<LightSelection>, queueMode: Option<string>,
    reasons: seq<string>, tests: seq<string>, shards: seq<seq<string>>, proposed: Option<nat>, picked: Option<nat>,
    universe: nat, ioMap: Option<IoMapNote>, prHead: Option<string>, responsibility: Responsibility)

  predicate IsTrain(ref: string) {
    "train/" <= ref
  }

  predicate Ordinary(f: PlanFacts) {
    f.event == "pull_request" && !IsTrain(f.headRef)
  }

  predicate Forced(f: PlanFacts) {
    f.runAttempt > 1 || "ci-full" in f.labels
  }

  function QueueMode(f: PlanFacts): Mode {
    ModeOf(f.queueMode.GetOr(""))
  }

  function Counts(sel: Selection, slow: seq<string>): (Option<nat>, Option<nat>) {
    match sel.proposed
    case None => (None, None)
    case Some(tests) => (Some(|WithoutSlow(tests, slow)|), Some(|WithoutSlow(Dedup(sel.linked), slow)|))
  }

  /** `ioMapPart`: the read map's note, and the selection that stands. */
  function IoMapPart(f: PlanFacts, mode: Mode, cur: Selection): (Option<IoMapNote>, Selection) {
    var io := ModeOf(f.ioMode);
    if f.readMap.NoReadMap? || cur.proposed.None? || io == Off then (None, cur)
    else if io == Unknown then (Some(IoMapNote(f.ioMode, false, None, None, ["unknown CI_IO_MAP"])), cur)
    else match f.readMap
      case Unusable(why) => (Some(IoMapNote(f.ioMode, false, None, None, why)), cur)
      case Usable(proposal) =>
        var sel := Select(mode, proposal, f.allTests);
        var (proposed, picked) := Counts(sel, f.slow);
        (Some(IoMapNote(f.ioMode, io == On, proposed, picked, sel.fullReasons)), if io == On then sel else cur)
  }

  /**
   * The read map is asked only when there is one, its switch is on or observing, and the selector has something to
   * compare it with.
   */
  predicate AsksReadMap(f: PlanFacts, cur: Selection) {
    !f.readMap.NoReadMap? && cur.proposed.Some? && ModeOf(f.ioMode) in {Observe, On}
  }

  /** Choosing throws: nobody in here catches it. */
  predicate ChoosingFails(f: PlanFacts, mode: Mode) {
    mode in f.selectFails || (AsksReadMap(f, Select(mode, f.proposal, f.allTests)) && mode in f.readFails)
  }

  /** What is chosen when nothing throws. */
  function Selected(f: PlanFacts, mode: Mode): (Option<IoMapNote>, Selection) {
    IoMapPart(f, mode, Select(mode, f.proposal, f.allTests))
  }

  function Answers(tests: seq<string>): Responsibility {
    Responsibility(Only(SortedSet(tests)), [])
  }

  /** `responsibilityOf`: a selector that throws leaves the pull request answerable for everything. */
  function ResponsibilityOf(f: PlanFacts): Responsibility {
    if f.event == "push" then Responsibility(All, ["push"])
    else if f.event == "workflow_dispatch" && (f.dispatchPr.None? || f.dispatchPr.value == 0)
      then Responsibility(All, ["dispatch without a PR"])
    else if f.event != "pull_request" && f.event != "workflow_dispatch" then Responsibility(All, ["event " + f.event])
    else if f.event == "pull_request" && IsTrain(f.headRef) then Responsibility(All, ["train"])
    else if f.event == "workflow_dispatch" && (!f.dispatchBranch.Branch? || f.dispatchBranch.ref == "") then
      Responsibility(All, ["source branch unknown"]
        + if f.dispatchBranch.Unread? then [f.dispatchBranch.reason] else [])
    else if f.event == "workflow_dispatch" && IsTrain(f.dispatchBranch.ref) then Responsibility(All, ["train"])
    else if ChoosingFails(f, On) then Responsibility(All, ["selector failed"])
    else
      var sel := Selected(f, On).1;
      if !sel.selected || sel.proposed.None?
        then Responsibility(All, if sel.fullReasons != [] then sel.fullReasons else ["no selection"])
      else if WithoutSlow(sel.tests, f.slow) == [] then Responsibility(All, ["only slow tests selected"])
      else Answers(sel.tests)
  }

  function FullPlan(f: PlanFacts, reasons: seq<string>, proposed: Option<nat>, picked: Option<nat>,
      ioMap: Option<IoMapNote>): CiPlan {
    CiPlan(f.event, f.sha, f.mode, Full, None, None, reasons, [], seq(SHARDS, _ => []), proposed, picked, |f.allTests|,
      ioMap, None, ResponsibilityOf(f))
  }

  /** `decide`; there is no plan when choosing throws. */
  function Decide(f: PlanFacts): Option<CiPlan> {
    if f.event == "push" then Some(FullPlan(f, ["push"], None, None, None))
    else if f.event == "workflow_dispatch" then Some(FullPlan(f, ["dispatch"], None, None, None))
    else if f.event != "pull_request" then Some(FullPlan(f, ["event " + f.event], None, None, None))
    else if IsTrain(f.headRef) then Some(FullPlan(f, ["train"], None, None, None))
    else if ChoosingFails(f, ModeOf(f.mode)) then None
    else Some(PlanBySelection(f))
  }

  function PlanBySelection(f: PlanFacts): CiPlan {
    var (ioMap, sel) := Selected(f, ModeOf(f.mode));
    var (proposed, picked) := Counts(sel, f.slow);
    var fellBack :=
      if ioMap.Some? && !ioMap.value.used && ModeOf(ioMap.value.mode) == On then ioMap.value.reasons else [];
    if !sel.selected then
      FullPlan(f, (if sel.fullReasons != [] then sel.fullReasons else ["full under this mode"]) + fellBack, proposed,
        picked, ioMap)
    else
      var tests := WithoutSlow(sel.tests, f.slow);
      if tests == [] then FullPlan(f, ["only slow tests selected"], Some(0), Some(0), ioMap)
      else CiPlan(f.event, f.sha, f.mode, Related, None, None, [], tests,
        PlanShards(tests, SHARDS, f.seconds, SHARD1_EXTRA), Some(|tests|), Some(|tests|), |f.allTests|, ioMap, None,
        ResponsibilityOf(f))
  }

  /** `buildPlan`; None where it throws. */
  function BuildPlan(f: PlanFacts): Option<CiPlan> {
    var mode := QueueMode(f);
    var asked := Ordinary(f) && !Forced(f) && mode != Off && mode != Unknown;
    var light := if asked && f.light.LightPicks? then Some(f.light.selection) else None;
    var plan :=
      if Ordinary(f) && Forced(f) then Some(FullPlan(f, ["forced full"], None, None, None))
      else if Ordinary(f) && mode == On then
        if light.Some? then
          Some(CiPlan(f.event, f.sha, f.mode, Light, None, None, light.value.reasons, light.value.tests,
            [light.value.tests], Some(|light.value.tests|), Some(|light.value.tests|), |f.allTests|, None, None,
            ResponsibilityOf(f)))
        else
          var reason := if asked && f.light.LightFails? then f.light.error else "no light graph";
          Some(FullPlan(f, [reason], None, None, None))
      else Decide(f);
    if plan.None? then None
    else
      Some(plan.value.(light := light, queueMode := f.queueMode,
        prHead := if f.event == "pull_request" && f.prHead != Some("") then f.prHead else None))
  }

  // ---- execution and responsibility ----

  predicate IsRelated(f: PlanFacts) {
    BuildPlan(f).Some? && BuildPlan(f).value.scope == Related
  }

  lemma PlanCarriesResponsibility(f: PlanFacts)
    ensures BuildPlan(f).Some? ==> BuildPlan(f).value.responsibility == ResponsibilityOf(f)
  {
    hide ResponsibilityOf, Selected, Counts, PlanShards, WithoutSlow;
  }

  /**
   * There is no plan exactly when an ordinary, unforced pull request outside the light queue meets a selector that
   * throws.
   */
  lemma NoPlanIff(f: PlanFacts)
    ensures BuildPlan(f).None? <==> Unforced(f) && f.queueMode != Some("on") && ChoosingFails(f, ModeOf(f.mode))
  {
    hide ResponsibilityOf, Selected, Counts, PlanShards, WithoutSlow, ChoosingFails;
  }

  /**
   * Whatever decides how much of the run is executed leaves the frozen responsibility alone, a throwing selector
   * included.
   */
  lemma ResponsibilityIgnoresExecution(f: PlanFacts, g: PlanFacts)
    requires g == f.(mode := g.mode, queueMode := g.queueMode, runAttempt := g.runAttempt, labels := g.labels,
      light := g.light, seconds := g.seconds, prHead := g.prHead)
    ensures BuildPlan(f).Some? && BuildPlan(g).Some? ==>
      BuildPlan(f).value.responsibility == BuildPlan(g).value.responsibility
  {
    hide BuildPlan, Selected, WithoutSlow;
    PlanCarriesResponsibility(f);
    PlanCarriesResponsibility(g);
    assert Selected(f, On) == Selected(g, On) by { SameSelected(f, g); }
  }

  lemma SameSelected(f: PlanFacts, g: PlanFacts)
    requires g == f.(mode := g.mode, queueMode := g.queueMode, runAttempt := g.runAttempt, labels := g.labels,
      light := g.light, seconds := g.seconds, prHead := g.prHead)
    ensures Selected(f, On) == Selected(g, On)
  {}

  /** A pull request, or a run dispatched for one whose source branch is known; and no train. */
  predicate HasSource(f: PlanFacts) {
    || (f.event == "pull_request" && !("train/" <= f.headRef))
    || (f.event == "workflow_dispatch" && f.dispatchPr.Some? && f.dispatchPr.value != 0
        && f.dispatchBranch.Branch? && f.dispatchBranch.ref != "" && !("train/" <= f.dispatchBranch.ref))
  }

  /** The measured read map has a say: it is there and usable, and its switch is on. */
  predicate MapDecides(f: PlanFacts) {
    f.readMap.Usable? && f.ioMode == "on"
  }

  /** The proposal that counts under mode on. */
  function Deciding(f: PlanFacts): Proposal {
    if MapDecides(f) then f.readMap.proposal else f.proposal
  }

  /** Asked under mode on, the selector throws, or the read map, which is read whenever its switch is not off. */
  predicate ThrowsUnderOn(f: PlanFacts) {
    On in f.selectFails || (!f.readMap.NoReadMap? && f.ioMode in {"", "observe", "on"} && On in f.readFails)
  }

  /**
   * A plan answers for less than everything exactly when it is made for a pull request that is no train, directly or by
   * a dispatch with a known source, nothing throws, and the deciding proposal has no reason against it and is not
   * wholly slow; it then answers for exactly what is proposed.
   */
  lemma AnswersForLessIff(f: PlanFacts)
    requires BuildPlan(f).Some?
    ensures var r := BuildPlan(f).value.responsibility.tests;
      && (r.Only? <==>
            && HasSource(f) && !ThrowsUnderOn(f)
            && Deciding(f).reasons == [] && exists t :: t in Deciding(f).tests && t !in f.slow)
      && (r.Only? ==> r.tests == SortedSet(Deciding(f).tests))
    ensures var r := BuildPlan(f).value.responsibility;
      && (r.tests.Only? <==> r.fallbackReasons == [])
      && (HasSource(f) && !ThrowsUnderOn(f) && Deciding(f).reasons != [] ==> r.fallbackReasons == Deciding(f).reasons)
  {
    hide BuildPlan, Counts, WithoutSlow, SortedSet;
    PlanCarriesResponsibility(f);
    OffTheSlowList(Deciding(f).tests, f.slow);
    DecidingSelection(f);
    var left := WithoutSlow(Deciding(f).tests, f.slow);
    if left != [] { assert left[0] in left; }
  }

  lemma DecidingSelection(f: PlanFacts)
    ensures var sel := Selected(f, On).1;
      && (sel.selected && sel.proposed.Some? <==> Deciding(f).reasons == [])
      && (sel.selected ==> sel.tests == Deciding(f).tests)
      && sel.fullReasons == Deciding(f).reasons
    ensures ChoosingFails(f, On) <==> ThrowsUnderOn(f)
  {
    hide Counts;
  }

  lemma SelectedOnlyUnderOn(f: PlanFacts, mode: Mode)
    ensures Selected(f, mode).1.selected ==> mode == On && Selected(f, mode).1.proposed.Some?
  {}

  // ---- what a plan says ----

  /** An ordinary pull request in its first attempt that nobody asked a full run for. */
  predicate Unforced(f: PlanFacts) {
    && f.event == "pull_request" && !("train/" <= f.headRef)
    && f.runAttempt <= 1 && "ci-full" !in f.labels
  }

  /** The light selection is made for those, unless the queue's switch is off or unknown. */
  predicate LightMade(f: PlanFacts, light: LightSelection) {
    && Unforced(f) && (f.queueMode.None? || f.queueMode.value in {"", "observe", "on"})
    && f.light == LightPicks(light)
  }

  /**
   * A plan carries the light selection exactly where one was made, and runs it exactly where the queue asks for it;
   * what went wrong with it is then the reason for a full run.
   */
  lemma LightSays(f: PlanFacts)
    requires BuildPlan(f).Some?
    ensures var p := BuildPlan(f).value;
      && (forall light :: p.light == Some(light) <==> LightMade(f, light))
      && (p.scope == Light <==> p.light.Some? && f.queueMode == Some("on"))
      && (p.scope == Light ==>
            && p.tests == p.light.value.tests && p.shards == [p.light.value.tests] && p.reasons == p.light.value.reasons
            && p.proposed == p.picked == Some(|p.tests|))
      && (Unforced(f) && f.queueMode == Some("on") && f.light.LightFails? ==> p.reasons == [f.light.error])
  {
    hide ResponsibilityOf, Selected, Counts, PlanShards, WithoutSlow;
  }

  /** A plan bears the facts of the run it was made for. */
  lemma PlanSays(f: PlanFacts)
    requires BuildPlan(f).Some?
    ensures var p := BuildPlan(f).value;
      && p.event == f.event && p.sha == f.sha && p.mode == f.mode && p.queueMode == f.queueMode
      && p.universe == |f.allTests|
      && p.prHead == (if f.event == "pull_request" && f.prHead != Some("") then f.prHead else None)
  {
    hide ResponsibilityOf, Selected, Counts, PlanShards, WithoutSlow;
  }

  /** A full plan hands out nothing and says why it is full; a related one has no such reason. */
  lemma ShapeSays(f: PlanFacts)
    requires BuildPlan(f).Some?
    ensures var p := BuildPlan(f).value;
      && (p.scope == Full ==>
            && p.tests == [] && p.reasons != [] && |p.shards| == 8 && forall i :: 0 <= i < 8 ==> p.shards[i] == [])
      && (p.scope == Related ==> p.reasons == [] && p.proposed == p.picked == Some(|p.tests|))
  {
    hide ResponsibilityOf, Selected, Counts, PlanShards, WithoutSlow;
  }

  function OffSlow(tests: seq<string>, slow: seq<string>): Option<nat> {
    Some(|WithoutSlow(tests, slow)|)
  }

  /**
   * The read map is reported on exactly where the selector was asked under on or observe, there is a map, and its
   * switch is not off; its proposal replaces the selector's only if the map is usable and its switch is on.
   */
  lemma ReadMapSays(f: PlanFacts, mode: Mode)
    ensures var (note, sel) := Selected(f, mode);
      && (note.Some? <==> !f.readMap.NoReadMap? && mode in {Observe, On} && f.ioMode != "off")
      && (note.Some? ==>
            && note.value.mode == f.ioMode && (note.value.used <==> f.readMap.Usable? && f.ioMode == "on")
            && (if f.readMap.Usable? && f.ioMode in {"", "observe", "on"} then
                  && note.value.reasons == f.readMap.proposal.reasons
                  && note.value.proposed == OffSlow(f.readMap.proposal.tests, f.slow)
                  && note.value.picked == OffSlow(Dedup(f.readMap.proposal.linked), f.slow)
                else
                  && note.value.proposed == note.value.picked == None
                  && (f.ioMode in {"", "observe", "on"} ==> note.value.reasons == f.readMap.why)
                  && (f.ioMode !in {"", "observe", "on"} ==> note.value.reasons != [])))
      && (mode in {Observe, On} ==>
            var p := if note.Some? && note.value.used then f.readMap.proposal else f.proposal;
            && sel.proposed == Some(p.tests) && sel.fullReasons == p.reasons && sel.linked == p.linked
            && (sel.selected <==> mode == On && p.reasons == [])
            && sel.tests == if sel.selected then p.tests else f.allTests)
      && (mode !in {Observe, On} ==>
            !sel.selected && sel.proposed == None && sel.tests == f.allTests && sel.fullReasons != [])
  {
    hide WithoutSlow, Dedup;
  }

  predicate EndsIn(all: seq<string>, last: seq<string>) {
    |all| >= |last| && all[|all| - |last|..] == last
  }

  /** What a plan made by selection reports of it: how many tests were proposed and reached, and the read map's part. */
  lemma SelectionSays(f: PlanFacts)
    requires BuildPlan(f).Some? && Unforced(f) && f.queueMode != Some("on")
    ensures var (note, sel) := Selected(f, ModeOf(f.mode)); var p := BuildPlan(f).value;
      && p.ioMap == note
      && p.proposed == (match sel.proposed case Some(tests) => OffSlow(tests, f.slow) case None => None)
      && (p.scope == Full && !sel.selected ==>
            && p.picked == (match sel.proposed case Some(_) => OffSlow(Dedup(sel.linked), f.slow) case None => None)
            && (sel.fullReasons != [] ==> sel.fullReasons <= p.reasons)
            && (note.Some? && !note.value.used && f.ioMode == "on" ==> EndsIn(p.reasons, note.value.reasons)))
      && (p.scope == Full && sel.selected ==> p.picked == Some(0))
  {
    hide ResponsibilityOf, PlanShards, WithoutSlow, Dedup;
    ReadMapSays(f, ModeOf(f.mode));
  }

  /**
   * A run executes a selection exactly when an ordinary, unforced pull request is decided under mode on and answers for
   * less than everything; it then executes exactly the tests it answers for, minus the slow list.
   */
  lemma RelatedIffAnswersForLess(f: PlanFacts)
    ensures IsRelated(f) <==>
      (Unforced(f) && f.queueMode != Some("on") && f.mode == "on" && ResponsibilityOf(f).tests.Only?)
    ensures IsRelated(f) ==>
      && BuildPlan(f).value.responsibility == ResponsibilityOf(f) && BuildPlan(f).value.tests != []
      && forall t :: t in BuildPlan(f).value.tests <==> t in ResponsibilityOf(f).tests.tests && t !in f.slow
  {
    hide Selected, Counts, PlanShards, WithoutSlow, Sorted;
    PlanCarriesResponsibility(f);
    SelectedOnlyUnderOn(f, ModeOf(f.mode));
    SelectedOnlyUnderOn(f, On);
    var sel := Selected(f, On).1;
    SortedSetMembers(sel.tests);
    OffTheSlowList(sel.tests, f.slow);
  }

  /** The related plan hands every one of its tests to some shard, as often as it was selected. */
  lemma RelatedPlanIsPartition(f: PlanFacts)
    requires IsRelated(f)
    ensures var plan := BuildPlan(f).value;
      |plan.shards| == SHARDS && multiset(Flatten(plan.shards)) == multiset(plan.tests)
  {
    hide PlanShards, Selected, Counts, ResponsibilityOf, Flatten;
    PlanIsPartition(BuildPlan(f).value.tests, SHARDS, f.seconds, SHARD1_EXTRA);
  }

  // ---- handing out ----

  datatype Refusal = WrongDigest | NotRelated | BadShard
  datatype Result<T> = Ok(value: T) | Err(error: Refusal)

  /** `files`: shard k's part of the frozen plan (k from 1). */
  function ShardFiles(plan: CiPlan, digest: string, k: nat, hash: CiPlan -> string): Result<seq<string>> {
    if hash(plan) != digest then Err(WrongDigest)
    else if plan.scope == Full then Err(NotRelated)
    else if k < 1 || k > |plan.shards| then Err(BadShard)
    else Ok(plan.shards[k - 1])
  }

  /** Whatever is handed out for the digest of a frozen plan is a shard of that very plan, and no plan is full. */
  lemma OnlyFrozenIsHandedOut(frozen: CiPlan, plan: CiPlan, k: nat, hash: CiPlan -> string)
    requires forall p, q :: hash(p) == hash(q) ==> p == q
    ensures ShardFiles(plan, hash(frozen), k, hash).Ok? <==>
      plan == frozen && frozen.scope != Full && 1 <= k <= |frozen.shards|
    ensures ShardFiles(plan, hash(frozen), k, hash).Ok? ==>
      ShardFiles(plan, hash(frozen), k, hash).value == frozen.shards[k - 1]
  {}
}
