# Claudestra, verified

A Dafny model of the parts of Claudestra in which an error is silent: the CI coverage proof, the bridge that hands messages to agents,
the pinned merge, and a few small algorithms they lean on. The main loops of the original that change state are methods proved to
compute a specification, and the theorems are about those specifications, over all inputs, all runs or all traces.

| files | original | subject |
|---|---|---|
| `ShardPlan`, `ShardBounds` | `scripts/ci-test-shard.ts` | greedy distribution of test files over shards: partition, canonicity, distance from the optimum |
| `ShardLog`, `ShardVerify` | `scripts/ci-test-shard.ts` | reading the shard logs back against the plan: sound and complete |
| `RelatedPlan`, `RelatedVerify` | `scripts/ci-related-plan.ts`, `scripts/ci-related-verify.ts` | running a selected subset, end to end; the frozen responsibility |
| `SelectedReceipts`, `SelectedGate`, `SectionReader` | `scripts/ci-selected-verdict.ts`, `src/lib/ci-selected-verdict.ts` | releasing a red shard by receipt; the two readers of receipts compared; the section of a proof read back |
| `ProofArtifact`, `HonestRun` | `scripts/ci-proof-artifact.ts` | the manifest of a full run, what it proves, and that an honest run gets one |
| `ProofReuse` | `scripts/ci-proof-reuse.ts` | standing in for a check with an earlier run, under every failure |
| `Bridge`, `BridgeServer`, `BridgeDebts`, `BridgeStops`, `BridgeThreads`, `BridgeOwners`, `Contention` | `src/bridge.ts`, `src/lib/channel-contention.ts` | channel ownership and reply debts as a state machine, with its handlers as a class and its runs as histories |
| `AnsiHtml` | `src/ansi2html.ts` | spans against the meaning of each character, by reading the HTML back |
| `PinnedMerge`, `MergeSession` | `scripts/pm-merge-preflight.ts` | one run of the merge command against an arbitrary world, judged by its trace |
| `ProcessTree` | `scripts/codex-probe.ts` | descendants of a process from snapshots; cutting a stream into lines |
| `IoMap` | `scripts/ci-io-map.ts` | canonical merge of read traces |
| `DepImport` | `scripts/ledger-import-deps.ts` | idempotent import of edges |
| `Chunker` | `legacy/bot.ts` | bounded, lossless message chunks |
| `Sequences`, `Text`, `OrderedMap` | | sorting, duplicates, lines, white space, and the insertion-ordered map the scripts rely on |

`dafny verify dfyconfig.toml` checks all of it.

## Where the code differs from what it says

- The gate of the check job and the proof disagree about a receipt that an earlier attempt left behind: the gate passes it over
  (`scripts/ci-selected-verdict.ts:86-89`), the proof counts it as a claim and refuses (`scripts/ci-proof-artifact.ts:176`). They also disagree about
  shards beyond the eighth, which the gate reads from the download (`scripts/ci-selected-verdict.ts:117-124`) and the proof never looks at.
  `SelectedGate.SectionAndGateAgree` states agreement exactly up to these two, `StaleClaimSplitsThem` and `StrayShardSplitsThem` show them.
- Rendering drops italics from the text behind the last SGR sequence of a line, because the tail has its own list of styles without that
  entry (`src/ansi2html.ts:90-99`). `AnsiHtml.LineKeepsMeaning` has the exact condition.
- A socket that holds several channels uses up its mark as replaced on the first of them (`src/bridge.ts:3128-3134`). If another one is
  taken over and the close callback runs inside the registration, its fight record and its watcher go although the channel is not
  empty; if it runs later, a channel that is left without a holder keeps both. `BridgeOwners.TakeoverOfOneOfMany` says for every channel and
  both orders what survives; the other theorems about takeovers name the discipline of one channel per socket.
- A Stop yields between its reminder check and its clearing loop, and the loop asks anew who holds the channel (`src/bridge.ts:2831-2838`). So it
  also clears requests that came in meanwhile, and whatever a socket owes that took the channel over meanwhile
  (`BridgeStops.LateRequestIsCleared`, `SuccessorIsCleared`). `BridgeStops.StopIsCleanIff` has the exact condition, one that could be looked up
  right before the loop. The history theorem is stated for what the loop does.
- A turn that leaves a request unanswered is to be held back once (`src/lib/reply-nudge.ts:6-12`), so that no request is forgotten in
  silence. But the Stop after one held back is let through unseen (`src/lib/reply-nudge.ts:28`) and clears everything its socket owes
  (`src/bridge.ts:2831-2838`): of two requests pending in one turn the second goes without a reminder (`BridgeStops.SecondRequestIsForgotten`).
  `BridgeStops.SilentIff` says exactly which requests a Stop clears in silence.
- The two digests of a manifest are equal exactly when the list of test files has no duplicates, and nothing in `buildCiProof` itself asks
  for that (`ProofArtifact.ManifestCoversUniverse`, `HonestRun.TwiceListedGetsManifest`). What keeps such a list out is the row in which each log
  states how many files the test runner found (`HonestRun.DiscoveredCountIsTheGuard`).
- With shard 1's head start the 4/3 bound of longest-first distribution does not hold for all weights (`ShardBounds.ExtraBreaksFourThirds`). It holds
  when every file is at most a third of the bound or no heavier than the head start, which the table of durations alone can show
  (`ShardBounds.FourThirdsByTheTable`); for all weights the bound is `GreedyWithinTwo`.

## Model

| member | source | states |
|---|---|---|
| ShardPlan.LightestOfIsLeast | scripts/ci-test-shard.ts:71-80 | the shard chosen for the next file has the least load, and every shard before it a strictly greater one |
| ShardPlan.HeaviestFirstIsTotalOrder | scripts/ci-test-shard.ts:74 | weight descending, then path: a total order on paths |
| ShardPlan.FindLightest | scripts/ci-test-shard.ts:75 | the reduction over the array of shards finds the lightest shard of lowest index |
| ShardPlan.Assign | scripts/ci-test-shard.ts:71-80 | the loop over the sorted files with its mutated shards computes the hand-out of the specification |
| ShardPlan.PlanIsPartition | scripts/ci-test-shard.ts:83-84 | the shards together hold exactly the files given, each as often as given; every shard is sorted by path |
| ShardPlan.PlanIsCanonical | scripts/ci-test-shard.ts:70-84 | for distinct paths any permutation of the input yields the identical shards |
| ShardPlan.PlanIsDisjoint | scripts/ci-test-shard.ts:83-84 | for distinct paths no file is in two shards and none twice in one |
| ShardBounds.GreedyWithinTwo | scripts/ci-test-shard.ts:71-88 | with non-negative weights and any extra on shard 1, n times the load of every shard is at most 2n - 1 times the heaviest load of any other distribution over n shards |
| ShardBounds.LongestFirstWithinFourThirds | scripts/ci-test-shard.ts:71-88 | 3n times the load of every shard is at most 4n - 1 times any bound m that some distribution keeps, as long as every file weighs at most m/3 or no more than the extra; without an extra, always |
| ShardBounds.FourThirdsByTheTable | scripts/ci-test-shard.ts:71-88 | the same from the table of durations alone: every file takes at most a third of an even share of everything, or is no heavier than the extra |
| ShardBounds.ExtraBreaksFourThirds | scripts/ci-test-shard.ts:71-88 | files of weight 60, 40 and 40 on two shards with the extra of 20 exceed it: a file heavier than the extra and than a third of the bound is what breaks it |
| ShardLog.CheckRan | scripts/ci-test-shard.ts:155-164 | filling a set while reading the group lines reports exactly the repeated, missing and foreign files of the specification |
| ShardLog.NoRanProblems | scripts/ci-test-shard.ts:155-164 | nothing is reported exactly when no file ran twice and the files that ran are the planned ones; for a plan without repetitions that is a permutation of it |
| ShardLog.RowsWithOnlyAt | scripts/ci-test-shard.ts:150-153 | the list of rows with a marker is [row] exactly when the marker stands there and nowhere else |
| ShardVerify.ReadSlowList | scripts/ci-test-shard.ts:56 | one pass over a set of files seen keeps each file once and whatever is met again |
| ShardVerify.CheckSlowList | scripts/ci-test-shard.ts:53-65 | the checks of the slow list, complaint after complaint, are the specified list |
| ShardVerify.NoSlowProblems | scripts/ci-test-shard.ts:53-65 | the slow list is accepted exactly when it names known files, none twice, at most 20, and at most 0.3 of the running time |
| ShardVerify.CleanSlowListSays | scripts/ci-test-shard.ts:53-65 | in numbers: at most 20 files, and ten times their time is at most three times the time of all |
| ShardVerify.CheckHeader | scripts/ci-test-shard.ts:147-149 | one complaint for each of the three header rows that differs |
| ShardVerify.CheckMarkers | scripts/ci-test-shard.ts:151-154 | one complaint for each kind of header row that is not exactly once in its place |
| ShardVerify.CheckShardLog | scripts/ci-test-shard.ts:144-165 | the check of one log, pushing complaint after complaint, is the specified list |
| ShardVerify.NoLogProblems | scripts/ci-test-shard.ts:144-165 | a log is accepted exactly when its four header rows stand once and in place and its group lines are the planned files, each once |
| ShardVerify.MatchingLogSays | scripts/ci-test-shard.ts:144-165 | in words: the first rows are shard=k/n, head=, discovered= and bun test v with a version, each nowhere else |
| ShardVerify.ShardNameInjective | scripts/ci-test-shard.ts:172 | different shards have different artifact names |
| ShardVerify.VerifySoundAndComplete | scripts/ci-test-shard.ts:171-184 | the gate returns no error exactly when the slow list is clean, the artifacts are test-shard-1..n, and each log matches its own part of the plan |
| ShardVerify.ShardRanItsPart | scripts/ci-test-shard.ts:171-184 | a shard whose log matches ran exactly its part of the plan |
| ShardVerify.CoveredRanEveryFileOnce | scripts/ci-test-shard.ts:167-184 | with distinct files an accepted run ran every file off the slow list exactly once over all shards, and no slow file |
| RelatedPlan.ResponsibilityIgnoresExecution | scripts/ci-related-plan.ts:128-169 | two runs that differ only in checks mode, queue mode, labels, attempt and light proposal freeze the same responsibility, a selector that throws included |
| RelatedPlan.AnswersForLessIff | scripts/ci-related-plan.ts:152-169 | a plan answers for less than everything exactly when it is for a pull request, directly or by a dispatch that names one and its source branch, that is no train, nothing throws under on, and the proposal that counts has no reason against it and is not wholly slow; it then answers for exactly the sorted set of what is proposed; otherwise it says why, in the words of the proposal that counts if that was asked |
| RelatedPlan.PlanSays | scripts/ci-related-plan.ts:130-148 | a plan bears the event, commit, modes and universe of its run, and the head of the pull request where there is one |
| RelatedPlan.ShapeSays | scripts/ci-related-plan.ts:106-192 | a full plan hands out nothing and gives a reason, a related one gives none and counts its tests |
| RelatedPlan.LightSays | scripts/ci-related-plan.ts:130-146 | a plan carries the light selection exactly for an unforced ordinary pull request whose queue switch is neither off nor unknown, and runs it exactly under on; a light selection that fails is the reason for the full run there |
| RelatedPlan.ReadMapSays | scripts/ci-related-plan.ts:117-127 | the read map is reported on exactly where it is there, its switch is not off and the selector proposed something; its proposal replaces the selector exactly if the map is usable and its switch is on |
| RelatedPlan.SelectionSays | scripts/ci-related-plan.ts:172-190 | what a plan reports of its selection: the tests proposed and reached, without the slow list, and the note on the read map |
| RelatedPlan.OnlyFrozenIsHandedOut | scripts/ci-related-plan.ts:337-343 | for the digest of a frozen plan a shard is handed out exactly of that very plan, if it is not full and has this shard |
| RelatedPlan.NoPlanIff | scripts/ci-related-plan.ts:130-187 | there is no plan exactly when an ordinary, unforced pull request outside the light queue meets a selector or read map that throws; the responsibility is then "all" |
| RelatedPlan.RelatedIffAnswersForLess | scripts/ci-related-plan.ts:130-187 | for a non-forced ordinary pull request under mode on with the queue mode not on, the scope is related exactly when the responsibility is not "all", and then the tests run are the responsibility without the slow list |
| RelatedPlan.RelatedPlanIsPartition | scripts/ci-related-plan.ts:172-187 | the shards of a related plan partition its tests |
| RelatedVerify.CheckMarkersOnce | scripts/ci-related-verify.ts:23-26 | one complaint for each header kind that occurs more than once |
| RelatedVerify.CheckLogRows | scripts/ci-related-verify.ts:16-35 | the check of one related log is the specified list of complaints |
| RelatedVerify.NoLogProblems | scripts/ci-related-verify.ts:16-35 | a related log is accepted exactly when header, fourth row, markers and files are as planned; a shard without files says zero=1 and nothing else |
| RelatedVerify.MatchingLogSays | scripts/ci-related-verify.ts:13-34 | in words: the first rows are shard=k/n, head=, plan= and either a version of bun or, for a shard without files, zero=1 with nothing but blank lines after it; no such row occurs twice |
| RelatedVerify.NoPlanFailures | scripts/ci-related-verify.ts:43-50 | nothing is held against the plan exactly when its shards are as many as the run has, it was made on the commit checked out, it is not an empty related selection nor a light one over several shards, and its shards are disjoint and together the selected tests |
| RelatedVerify.VerifyRelatedRun | scripts/ci-related-verify.ts:38-60 | the whole check with its early returns is the specified list of failures |
| RelatedVerify.OnlyTheFrozenPlan | scripts/ci-related-verify.ts:38-41 | a plan whose digest is not the frozen one is never accepted |
| RelatedVerify.VerifyRelatedIff | scripts/ci-related-verify.ts:38-60 | acceptance exactly when the digest is the frozen one, the scope is related or light, the plan fits the run, and every shard matches |
| RelatedVerify.BuiltPlanFits | scripts/ci-related-verify.ts:44-50 | a related plan built from a duplicate-free selection passes all checks of the plan on its own commit |
| RelatedVerify.RelatedEndToEnd | scripts/ci-related-verify.ts:38-60 | for every related plan that can be built from a duplicate-free selection, the run is accepted exactly when each shard ran what was handed out to it and nothing else came in |
| RelatedVerify.AcceptedRanSelectionOnce | scripts/ci-related-verify.ts:38-60 | an accepted related run ran every selected test exactly once over all shards |
| SelectedReceipts.ListOutOfScope | src/lib/ci-selected-verdict.ts:79-83 | the loop over a set of keys seen lists every failure once, in the order met |
| SelectedReceipts.ParseReceipt | src/lib/ci-selected-verdict.ts:147-158 | exactly these are receipts: an object with the exact fields, of this version, numbers from 1, a full commit, a log digest and, if any, a responsibility digest of the right shape; applied only if it allows, under mode on, and names a responsibility |
| Text.NamesAreHex | src/lib/ci-selected-verdict.ts:141-142 | a full commit name is forty hexadecimal digits, a fingerprint sixty-four behind its prefix |
| Text.LowerSays | src/lib/ci-selected-verdict.ts:168 | two heads are the same up to capitals |
| SelectedReceipts.NoReceiptProblems | src/lib/ci-selected-verdict.ts:160-172 | nothing is held against a receipt exactly when it is well-formed, applied, and of this shard, run, attempt, head and log |
| SelectedReceipts.AllowedIffOutOfScope | src/lib/ci-selected-verdict.ts:59-85 | a red shard is let go exactly when its plan is the frozen one with a bounded responsibility, nothing else is red, its failures are known, and each lies in a test file outside the responsibility and outside the change |
| SelectedReceipts.NormSays | src/lib/ci-selected-verdict.ts:57 | a leading ./ is cut off and nothing else |
| SelectedReceipts.ReceiptSays | scripts/ci-selected-verdict.ts:51-62 | a receipt names its shard, run, log and frozen responsibility; it allows exactly when all failures are out of scope, lists each of them once, and is applied only under mode on |
| SelectedReceipts.ReceiptRoundTrip | scripts/ci-selected-verdict.ts:50-62 | the receipt a red shard writes is taken back exactly when the gate is on, all its failures are out of scope, and shard, run, attempt and head are such as a receipt may name |
| SelectedGate.CollectReceipts | scripts/ci-proof-artifact.ts:174-181 | the loop over the shards collects the problems and the good receipts of exactly the released shards |
| SelectedGate.CollectSection | scripts/ci-proof-artifact.ts:172-188 | the section as collected is the section of the specification |
| SelectedGate.NoProblemsOf | scripts/ci-proof-artifact.ts:174-181 | no problem exactly when every released shard has a releasing receipt of its own |
| SelectedGate.ReleasedReceipts | scripts/ci-proof-artifact.ts:179-187 | then there is one receipt per released shard, in shard order, each with a known responsibility |
| SelectedGate.CollectOutOfScope | scripts/ci-selected-verdict.ts:95-96 | failures are listed once each, in the order met |
| SelectedGate.SectionAndGateAgree | scripts/ci-selected-verdict.ts:85-100 | on the same logs, receipts, run and head with the gate on: section and gate find no problem and release the same shards on the same receipt digests and responsibility exactly when the gate finds none, no claim of another attempt is left, and no shard outside 1..8 is released; short of such a shard they find problems together but for a left-over claim |
| SelectedGate.StaleClaimSplitsThem | scripts/ci-selected-verdict.ts:86-89 | a left-over claim of another attempt, when nothing else is released, is passed over by the gate and refused by the proof |
| SelectedGate.StaleClaimExists | scripts/ci-selected-verdict.ts:86-89 | such a download exists |
| SelectedGate.StaleIsAReceipt | src/lib/ci-selected-verdict.ts:147-158 | the left-over receipt of that download is one the parser takes |
| SelectedGate.StrayShardSplitsThem | scripts/ci-selected-verdict.ts:117-124 | the red log of a shard that the run does not have, without a receipt: the section has no problem, the gate refuses |
| SelectedGate.GateOnlyWhenOn | scripts/ci-selected-verdict.ts:85-100 | a gate whose mode is not on refuses whenever anything is to be released, and is silent otherwise |
| SelectedGate.VerdictSays | scripts/ci-selected-verdict.ts:95-98 | a verdict names mode and run, and lists each failure of the receipts of the released shards once |
| SectionReader.CheckSection | src/lib/ci-selected-verdict.ts:185-200 | the early returns and the loop over the listed receipts push the specified problems |
| SectionReader.NoSectionProblems | src/lib/ci-selected-verdict.ts:185-200 | a section passes exactly when it is the one the proof names, of this run, attempt and checkout, and lists at least one receipt, each well-formed, applied, under its own digest and shard, and of the run, head and responsibility of the section |
| SectionReader.SectionRoundTrip | src/lib/ci-selected-verdict.ts:184-200 | a section that was written without problems passes exactly unchanged, and exactly for the run, attempt and checkout it was written for |
| ProofArtifact.ShardProblems | scripts/ci-proof-artifact.ts:133-150 | the loop over the shards and their facts is the specified list of refusals |
| ProofArtifact.NoShardProblems | scripts/ci-proof-artifact.ts:133-150 | no refusal exactly when every shard has facts of this run, attempt and commit written beside this very log, and shard 1 passed typecheck, guard and build |
| ProofArtifact.CheckJobs | scripts/ci-proof-artifact.ts:207-209 | one refusal for each required job that is not green, in order |
| ProofArtifact.BuildCiProof | scripts/ci-proof-artifact.ts:205-244 | pushing refusals check after check, and a manifest only for an empty list, is the specified proof |
| ProofArtifact.NoRefusals | scripts/ci-proof-artifact.ts:205-225 | no refusal exactly when all that a manifest stands for holds |
| ProofArtifact.ManifestIff | scripts/ci-proof-artifact.ts:226-244 | a manifest is written exactly when jobs, checkout, coverage, facts, releases and web build all line up and the manifest is well-formed; it is the manifest of this input |
| ProofArtifact.ManifestSays | scripts/ci-proof-artifact.ts:190-243 | a manifest names the repository, head, base and workflow of its run, checked out at the tested commit and tree, with the given toolchain; its checks are the four required jobs, each green, and the web build exactly under mode on, where it succeeded |
| ProofArtifact.WebBuildIff | scripts/ci-proof-artifact.ts:153-226 | under mode on the web build counts exactly if its job is green and its facts are of this run, made under the same mode, and tell of a success |
| ProofArtifact.CoveredRanTheUniverse | scripts/ci-proof-artifact.ts:127-131 | over all logs of a covered run the files that ran are the files off the slow list |
| ProofArtifact.ManifestCoversUniverse | scripts/ci-proof-artifact.ts:190-200 | with a manifest the files that ran are the universe; its two digests agree, and its count is the number of files run, exactly when the universe lists no file twice |
| ProofArtifact.DigestsAgree | scripts/ci-proof-artifact.ts:129-131 | the digests of a list and of the set of its members agree exactly when the list has no duplicates |
| ProofArtifact.ManifestCoversRedShards | scripts/ci-proof-artifact.ts:168-188 | with a manifest every shard whose log shows failures is covered by an applied, allowing receipt of this run, shard and log in the section whose digest the policy carries |
| ProofArtifact.SectionCovers | scripts/ci-proof-artifact.ts:172-188 | a section without problems lists a releasing receipt for every shard with failures, under the one responsibility of the section |
| ProofArtifact.ManifestSectionReadsBack | src/lib/ci-proof.ts:128-133 | the section delivered with a manifest is the one its policy names, and passes the verifying side exactly unchanged and exactly with this run and attempt |
| ProofArtifact.ManifestMeansDesktopRan | scripts/ci-proof-artifact.ts:364-370 | a manifest from the jobs' own results means the desktop job succeeded and really ran |
| HonestRun.HonestLogsAreCovered | scripts/ci-test-shard.ts:167-184 | the gate can be passed: for every universe of plainly named files with a clean slow list, the logs of shards that each ran their part once are accepted |
| HonestRun.HonestRunIsProven | scripts/ci-proof-artifact.ts:205-225 | such a run, with the facts its jobs write, satisfies everything a manifest stands for |
| HonestRun.HonestRunGetsManifest | scripts/ci-proof-artifact.ts:226-244 | and gets its manifest if only the format is right |
| HonestRun.TwiceListedGetsManifest | scripts/ci-proof-artifact.ts:190-200 | a universe that lists a file twice gets a manifest whose digests differ and whose count is not the number of files run, when the logs count as many files as are listed |
| HonestRun.TwiceIsSound | scripts/ci-test-shard.ts:67-68 | there is such a universe among sound runs |
| HonestRun.DiscoveredCountIsTheGuard | scripts/ci-test-shard.ts:147-149 | where the third row of a log counts each file once, a covered run has a universe without repetitions |
| Contention.CountWins | src/lib/channel-contention.ts:89-97 | the map of counts finds exactly the processes that won the channel twice or more, in the order of their first win |
| Contention.ListPids | src/lib/channel-contention.ts:103-113 | the backward loop with its set lists each process that took part once, the latest first |
| Contention.Note | src/lib/channel-contention.ts:76-116 | noting a takeover trims, counts, lists the processes and reports as specified |
| Contention.KeptSays | src/lib/channel-contention.ts:80-83 | kept are the takeovers of the last ten minutes, the latest 32 if there are more |
| Contention.FightIsNoticed | src/lib/channel-contention.ts:16-29 | of three live takeovers within one window, the first and third by one process, one is reported unless an earlier report is cooling down, whatever history came before |
| Contention.ReportNeedsFight | src/lib/channel-contention.ts:76-101 | a report needs three live takeovers within ten minutes, two of them by one process, and none for this channel within half an hour |
| Contention.ReportsAreApart | src/lib/channel-contention.ts:99-101 | in every series of takeovers and clearings, two reports on one channel are half an hour apart unless it was cleared in between |
| BridgeServer.Server.HandleFrame | src/bridge.ts:1582-1588 | the first entry of the socket is stamped, nothing else changes |
| BridgeServer.Server.HandleClose | src/bridge.ts:3127-3150 | deleting while iterating makes exactly the close step |
| BridgeServer.Server.HandleRegister | src/bridge.ts:1617-1670 | registration makes exactly the register step, whether the old socket's callback runs inside it or not; the report is that of the tracker |
| BridgeServer.Server.HandleReply | src/bridge.ts:1707-1718 | a reply, and a message routed to an agent with its channel as the address, deletes the keys the sender owes to that address |
| BridgeServer.Server.HandleResponse | src/bridge.ts:630-640 | a response settles the request it names |
| BridgeServer.Server.FindNudge | src/lib/reply-nudge.ts:23-36 | the loop finds the oldest debt worth a reminder |
| BridgeServer.Server.HandleStopArrives | src/bridge.ts:2611-2643 | the early returns of the Stop hook: swallowed, or held back for one debt that is marked, or let through with the books untouched |
| BridgeServer.Server.HandleStopClears | src/bridge.ts:2831-2849 | the clearing loops delete the debts and threads of the socket that holds the channel by then |
| BridgeServer.Server.HandleCompletionSent | src/bridge.ts:2869 | the time of the completion is remembered for its channel and no other |
| BridgeServer.Server.HandleSweep | src/bridge.ts:2567-2573 | threads older than 30 minutes go |
| Bridge.RunKeepsForm | src/bridge.ts:240-383 | in every run the keys of each map stay unique |
| Bridge.RegisterTakes | src/bridge.ts:1617-1667 | an admitted registration ends with the channel in its hands in both orders of the close callback, and leaves debts alone |
| BridgeDebts.PickIsOldest | src/lib/reply-nudge.ts:23-36 | the reminder goes to the oldest qualifying debt, the first listed among equals, and to none only if none qualifies |
| BridgeDebts.StepDebts | src/bridge.ts:920-946 | for every event: a debt is in the book afterwards exactly when the event hung it, or it was there and was neither replaced nor discharged |
| BridgeDebts.BookIsHistory | src/bridge.ts:355-366 | in every run the book holds exactly the requests delivered to a socket that since then has neither replied to their address nor sent to that channel, that were not answered by name, and that no Stop of a channel it holds has cleared |
| BridgeDebts.OnlyTheDebtorSettles | src/bridge.ts:1711-1718 | a reply or a send discharges only debts of its own sender to that very address, even when many requests share it; a Stop only debts of the socket that holds its channel when it clears |
| BridgeDebts.KeptOrHung | src/bridge.ts:920-946 | a debt in the book was there at any earlier point of the run, perhaps nudged since, or was handed over after that point |
| BridgeDebts.BlockedIff | src/lib/reply-nudge.ts:23-36 | a Stop is held back exactly when it is a plain one that was neither forced on nor follows an abort nor was swallowed, and the holder of its channel has a request from outside that is at least 500 ms old and was not reminded of |
| BridgeDebts.OneNudgePerRequest | src/lib/reply-nudge.ts:7-13 | in every run, between two Stops held back over the same thread a new request was handed over on it: every request earns at most one reminder |
| BridgeDebts.RemindersAreCovered | src/lib/reply-nudge.ts:7-13 | so in every run the Stops held back, and the debts still without a reminder, are together at most the requests delivered |
| BridgeDebts.ClearedWereReminded | src/bridge.ts:2611-2645 | a Stop is let through over a request from outside that is 500 ms old and was not reminded of only if it is no plain Stop, was forced on by one held back before, or follows an abort |
| BridgeStops.StopIsHistory | src/bridge.ts:2611-2683 | in every run a Stop under way was let through by the reminder, and one that may clear passed the check for a repeat after that |
| BridgeStops.LastDoneIsHistory | src/bridge.ts:2340-2869 | in every run, what is remembered of a channel is when its last completion was sent, and nothing if none was |
| BridgeStops.RepeatIsHistory | src/bridge.ts:2676-2683 | in every run, the check takes the end of a turn that follows no abort for a repeat exactly when the last completion of its channel was sent less than ten seconds before, or none was and the clock reads less than that |
| BridgeStops.ClearsOnlyWhatCameThrough | src/bridge.ts:2831-2838 | in every run debts are cleared only by a Stop, a StopFailure or a stop that was neither swallowed nor held back and, unless it follows an abort, was checked at least ten seconds after the last completion of its channel; and only those of the present holder |
| BridgeStops.LeftAloneItClears | src/bridge.ts:2611-2849 | left alone, such a hook takes every debt of the holder of its channel and no other; any other hook takes none |
| BridgeStops.StopIsCleanIff | src/bridge.ts:2831-2838 | in every run, a Stop that gets to its clearing loop discharges only debts that the holder of its channel owed when it arrived if and only if, right before, the channel is still with that holder or its new holder owes nothing, and nothing in the book was handed over to the holder since the arrival |
| BridgeStops.SilentIff | src/bridge.ts:2611-2645 | in every run, a Stop that gets to its clearing loop discharges in silence exactly the requests from outside of the present holder that were 500 ms old when it arrived and never reminded of, if it was no plain Stop, was forced on by one held back before, follows an abort, or arrived under another holder; otherwise none |
| BridgeStops.CleanStopReminded | src/bridge.ts:2611-2643 | so an undisturbed Stop clears such a request in silence only if it was no plain Stop, was forced on, or follows an abort, and then it clears all of them |
| BridgeStops.SecondRequestIsForgotten | src/lib/reply-nudge.ts:27-28 | a run in which two requests are pending: the Stop is held back for the first, the first is answered, and the next Stop is let through and clears the second, long overdue and never reminded of |
| BridgeStops.LateRequestIsCleared | src/bridge.ts:2831-2838 | a request that comes in while a Stop is under way is cleared with it |
| BridgeStops.SuccessorIsCleared | src/bridge.ts:2831-2838 | a Stop that began under one holder clears the debts of the socket that took the channel over since |
| BridgeThreads.StepThreads | src/bridge.ts:920-946 | for every event: what becomes of a thread |
| BridgeThreads.ThreadIsHistory | src/bridge.ts:2560-2573 | in every run a thread stands in the book with a socket and a time exactly when a request opened it so and since then it was neither opened anew nor answered by name, cleared by a turn of its socket, closed with its socket, or swept for being older than half an hour |
| BridgeOwners.StepHolds | src/bridge.ts:1617-1670 | for every event: a socket holds a channel afterwards exactly when it took it, or held it and did not lose it |
| BridgeOwners.OwnerIsHistory | src/bridge.ts:240-263 | in every run, whatever the order of close callbacks, a channel maps to exactly the socket that took it last and has not lost it since |
| BridgeOwners.ClosedLeavesNothing | src/bridge.ts:3127-3150 | right after its close a socket has no channel and no thread, and no other socket has lost one |
| BridgeOwners.RunKeepsTidy | src/bridge.ts:254-263 | if sockets register for one channel only and not again once replaced, then in every run each socket holds at most one channel and a replaced one none |
| BridgeOwners.TakeoverForgetsNothing | src/bridge.ts:1627-1657 | then a takeover keeps every fight record, adds its own, and stops no watcher, in both orders of the close callback |
| BridgeOwners.LateCloseForgetsNothing | src/bridge.ts:3127-3150 | and the late close of the replaced socket changes nothing but its own threads |
| BridgeOwners.ForgottenOnlyWhenEmpty | src/bridge.ts:3127-3137 | a fight record or a watcher disappears only when the very holder of the channel closes by itself |
| BridgeOwners.FightIsReported | src/bridge.ts:1636-1657 | two processes that take a channel from each other in quick succession are reported, in whatever order the callbacks run, unless the last report on that channel is still cooling down |
| BridgeOwners.TakeoverOfOneOfMany | src/bridge.ts:3128-3134 | without that discipline, in both orders of the close callback: the old socket ends without a channel, and of its channels exactly these keep record and watcher: on the spot the first of all, later the one taken over and the first of the others |
| BridgeOwners.SharedSocketLosesRecord | src/bridge.ts:3128-3134 | a run in which a socket registers for two channels and the second is taken over on the spot: the record just made of it is gone |
| BridgeOwners.SharedSocketKeepsWatcher | src/bridge.ts:3128-3134 | with the late callback the first channel is left without a holder and keeps its watcher |
| AnsiHtml.ApplyCodes | src/ansi2html.ts:65-87 | the loop over the codes of one sequence, with its skips for extended colours, is the fold of the specification |
| AnsiHtml.WrittenCodes | src/ansi2html.ts:46-65 | a sequence written from a list of codes is read back as that list, and an empty one as code 0; what follows is styled accordingly |
| AnsiHtml.FlagsAfter | src/ansi2html.ts:68-73 | after any list of codes, bold, dim and italic are on exactly if the last code among 0, 1, 22, or 0, 2, 22, or 0, 3, 23 turns them on; arguments of extended colours do not count as codes |
| AnsiHtml.ColoursAfter | src/ansi2html.ts:68-87 | the colour of the text is that of the last code among 0, 30-37, 38 with a colour, 39, 90-97, with its entry of the table, and the background that of 0, 40-47, 48, 49 |
| AnsiHtml.PaletteIs | src/ansi2html.ts:17-28 | of the 256 colours the first sixteen are named, and those from 232 on are greys |
| AnsiHtml.CubeIs | src/ansi2html.ts:17-28 | and those in between a cube of side six |
| AnsiHtml.CssDeclares | src/ansi2html.ts:52-62 | the style attribute holds exactly the declarations of the style: colour, a background that is not the default, bold as font-weight, dim as opacity, italic as font-style |
| AnsiHtml.GroupingIsFree | src/ansi2html.ts:65-87 | a list of codes has the effect of its two parts one after the other, as long as the first cuts no extended colour in two |
| AnsiHtml.JoinedSequences | src/ansi2html.ts:46-87 | so two adjacent sequences mean and draw the same as one with their parameters joined by a semicolon, as long as the first cuts no extended colour in two (section 8.3.117 of ECMA-48) |
| AnsiHtml.EscapeIsPerCharacter | src/ansi2html.ts:30-32 | the three-pass escape is one replacement per character |
| AnsiHtml.ReadSpan | src/ansi2html.ts:52-62 | reading a written span gives its text, every character under the span's style |
| AnsiHtml.CssTellsStyles | src/ansi2html.ts:56-61 | different styles have different style attributes |
| AnsiHtml.FindSgr | src/ansi2html.ts:46-51 | the next match is the first position at which a sequence starts |
| AnsiHtml.RenderLine | src/ansi2html.ts:38-102 | the HTML of a line reads back as its visible characters, each in the style folded from the sequences before it, except that nothing behind the last sequence is italic; a line with nothing to see is &nbsp; |
| AnsiHtml.DrawnIsMeaning | src/ansi2html.ts:90-99 | the drawn line is its meaning exactly when no italic text follows the last sequence |
| AnsiHtml.LineKeepsMeaning | src/ansi2html.ts:38-102 | no visible character is lost or moved; and each keeps its style exactly when no italic text follows the last sequence |
| AnsiHtml.ItalicTailIsLost | src/ansi2html.ts:90-99 | the shortest line that loses its italics |
| AnsiHtml.AnsiToHtml | src/ansi2html.ts:34-120 | one rendered div per input line, in order, between the head and the foot of the page |
| PinnedMerge.NewestIsNewest | src/lib/review-main-carry-manual-ci.ts:17-31 | the run judged under a name is the one of highest id on exactly this head |
| PinnedMerge.StateSays | src/lib/review-main-carry-manual-ci.ts:17-31 | what a state says about the runs: none, a completed success of the latest run, or a completed run with another conclusion |
| PinnedMerge.VerdictIsGreen | scripts/pm-merge-preflight.ts:64-72 | the verdict on a head is positive exactly when the latest run on this head of every required name is completed with success, and so is that of a light run, beside a full one, and of a full run, where there is one; it is negative for good exactly when a required name has no run or a latest run ended otherwise |
| MergeSession.Session.Preflight | scripts/pm-merge-preflight.ts:86-110 | a preflight passes exactly when its calls were, in this order, an open pull request at the head, main in place, the carry proof where the head moved, and green checks of that head; otherwise there is a reason |
| MergeSession.Session.UpdateBranch | scripts/pm-merge-preflight.ts:124-140 | one update pinned on the expected head, then looks at the head until it has moved |
| MergeSession.Session.WaitForHeadRuns | scripts/pm-merge-preflight.ts:112-122 | present only when every required check has a run on the new head |
| MergeSession.Session.RunStrict | scripts/pm-merge-preflight.ts:152-160 | the steps run in order up to the first failure; ok exactly when all ran and ended with zero |
| MergeSession.Session.Finish | scripts/pm-merge-preflight.ts:298-303 | the merge is sent once; the steps run only if it is confirmed with a full commit name; exit 4, 0 or 5 accordingly |
| MergeSession.Session.MergeCommand | scripts/pm-merge-preflight.ts:239-307 | either nothing is merged, and an exit other than zero has a reason, 3 exactly when the last answer was that the head had not moved yet, that the checks had not appeared yet, or that they were neither green nor beyond repair; or the trace is that of a fully backed merge and the exit code tells what became of it |
| MergeSession.OneMerge | scripts/pm-merge-preflight.ts:264-303 | in the trace of a run that merges there is one merge, before it only reads and the pinned update, after it only the steps |
| MergeSession.MergeIsGuarded | scripts/pm-merge-preflight.ts:263-298 | the merged head was seen green twice, and proved from the reviewed head each time if it moved, with only reads after the second; the last authorization names the same reviewed head as the first, read before any call to GitHub |
| MergeSession.ZeroAfterMerge | scripts/pm-merge-preflight.ts:298-303 | exit 4 after a merge exactly when it was not confirmed with a full commit name, and then no step ran; exit 0 exactly when it was and every step ran and ended with zero in time |
| ProofReuse.FindCandidate | scripts/ci-proof-reuse.ts:107-108 | the first candidate is taken |
| ProofReuse.CandidateIsFirst | scripts/ci-proof-reuse.ts:107-108 | it is verified, has a digest, and none before it does |
| ProofReuse.Run.ExecuteAll | scripts/ci-proof-reuse.ts:88-95 | the commands run in order up to the first failure, whose code is returned |
| ProofReuse.Run.Decide | scripts/ci-proof-reuse.ts:97-109 | a failure to compute inputs or to look up is a miss and nothing more |
| ProofReuse.Run.RunCheck | scripts/ci-proof-reuse.ts:111-144 | under any failure of stamp, inputs, lookup, receipt, record or output the trace and the code are lawful |
| ProofReuse.ZeroIffRanOrVouched | scripts/ci-proof-reuse.ts:111-144 | the check passes exactly when all commands ran green in order, or, only with reuse on, a receipt for a verified candidate was written and no command ran |
| ProofReuse.RecordOnlyAfterSuccess | scripts/ci-proof-reuse.ts:131-143 | a record is tried only after a complete green execution with known inputs, and it comes last |
| ProofReuse.OnlyOnSkips | scripts/ci-proof-reuse.ts:116-131 | off looks nothing up; observe never lets a command go |
| ProcessTree.Probe.Pass | scripts/codex-probe.ts:340-348 | one pass enters only descendants, and changes nothing only when the table is closed |
| ProcessTree.Probe.Scan | scripts/codex-probe.ts:332-349 | the grow-until-stable loop ends, and enters exactly the rows reachable by parent links from the live tracked processes and the unreaped server |
| ProcessTree.Probe.Sweep | scripts/codex-probe.ts:363-368 | a scan, then the live tracked rows |
| ProcessTree.RootsSay | scripts/codex-probe.ts:336-361 | the search starts at the tracked processes that have a row with the same start and are no zombies, and at the server until it is reaped |
| ProcessTree.OrderIsIrrelevant | scripts/codex-probe.ts:336-349 | the table after a scan does not depend on the order of the snapshot |
| ProcessTree.SweepIsExact | scripts/codex-probe.ts:351-368 | the report is exactly the running processes that were tracked or descend from a root in this snapshot |
| ProcessTree.OnlyKinIsTracked | scripts/codex-probe.ts:332-361 | over any series of scans with any reuse of pids, every tracked process, by pid and start time, has been shown to descend from the server |
| ProcessTree.Pump | scripts/codex-probe.ts:204-216 | however the output is cut into chunks, the lines of the whole that are not blank are handed on, once and in order |
| Text.SpaceSays | scripts/ci-io-map.ts:45 | the white space that is trimmed, one by one |
| IoMap.Collect | scripts/ci-io-map.ts:41-54 | the nested maps of sets hold exactly the valid records, grouped in order of arrival; every non-blank line is counted as used or bad |
| IoMap.BuildIoMap | scripts/ci-io-map.ts:39-61 | the entries are those of the records read |
| IoMap.RecordsExact | scripts/ci-io-map.ts:43-50 | the records are those of the lines that are not blank, parse, name a module and a path, and have one of the three kinds |
| IoMap.EntriesCanonical | scripts/ci-io-map.ts:39-61 | the entries depend on the set of valid records alone |
| IoMap.EntriesExact | scripts/ci-io-map.ts:39-61 | a triple is in the map exactly when a valid record states it; modules and lists are sorted without duplicates |
| IoMap.ResplitChangesNothing | scripts/ci-io-map.ts:43-45 | cutting a text in two at a line break changes no record |
| IoMap.CollectSpawns | scripts/ci-io-map.ts:28-35 | spawned repository modules without an entry, grouped with their spawners |
| IoMap.UntrackedSpawns | scripts/ci-io-map.ts:27-37 | the sorted list of them |
| IoMap.IsModuleIff | scripts/ci-io-map.ts:21 | the list of twelve extensions is the language of the pattern for module files |
| IoMap.UntrackedExact | scripts/ci-io-map.ts:23-37 | reported are exactly the repository modules that an entry spawned and that have none, minus the recorder, each with exactly its spawners |
| DepImport.PlanDepImport | scripts/ledger-import-deps.ts:59-100 | the loop with its growing set of pairs makes the specified decisions |
| DepImport.AddedIff | scripts/ledger-import-deps.ts:72-98 | an edge is added exactly when nothing is wrong with it, the ledger neither has nor had it, and no such edge of the same pair stands before it |
| DepImport.AddedSays | scripts/ledger-import-deps.ts:68-98 | an added edge keeps its ends, has its condition trimmed, "blocks" for want of a kind, its state only if states are kept, and the dedup key of its pair |
| DepImport.ReasonIsTrue | scripts/ledger-import-deps.ts:48-90 | a reason given for skipping an edge is true of it |
| DepImport.EveryEdgeOnce | scripts/ledger-import-deps.ts:72-98 | every edge has exactly one entry in the plan, planned from it or skipped with its first reason, and the entries stand in the order of the edges |
| DepImport.NoPairTwice | scripts/ledger-import-deps.ts:72-98 | no pair is added twice, and none the ledger has |
| DepImport.SecondRunAddsNothing | scripts/ledger-import-deps.ts:55-58 | planning again once the added edges exist adds nothing |
| Chunker.ParagraphChunks | legacy/bot.ts:462-483 | every chunk is at most 1900 long, and the chunks lie in the text one after the other with only white space around them |
| Chunker.FormattedMessages | legacy/bot.ts:446-483 | the same for the messages sent; a short text goes out unchanged, an empty one as a notice |
| Chunker.ParagraphsJoin | legacy/bot.ts:464 | splitting at blank lines and joining gives the text back |
| Chunker.LaidKeepsInk | legacy/bot.ts:462-483 | chunks laid out in a text have all its characters but white space, in order |
| Chunker.FencedBodies | legacy/bot.ts:526-539 | a fenced chunk is at most 1900 long unless it holds a single line longer than 1892; the bodies together are the text with a final line break, but for a tail of white space |
| Chunker.FencedMessages | legacy/bot.ts:507-539 | the same for the messages sent; a text that fits goes out in one fence |

## Left out

- Durations are exact reals, not IEEE doubles, and the number of shards is at least one, as in every call; `Math.round`, medians and the recomputation of durations from logs are not modelled.
- A `char` is one UTF-16 code unit; surrogates, and with them text outside the basic plane, are left aside, as are locale rules. `toLowerCase` is ASCII lower case, which is all it meets in commit names.
- SHA-256 and canonical JSON are injective constructors or injective parameters; parsing JSON gives a value or a failure. Regular expressions are hand-written recognizers with the same language.
- Texts of complaints are not modelled, only which complaint it is and about what.
- The selectors behind a related plan (`selectImpactedTests`, `selectLightTests`, the read map) propose arbitrary selections, or throw under any mode; that under mode on a selected run has a proposal is as in `src/lib/ci-impact-select.ts:239-251`. Reasons are told apart only where the code does. A selector that is asked twice in one run, for the plan and for the responsibility, is taken to answer alike.
- Parsing the summary of bun (`hasBunFailures`, `shardLogFailures`, `shardComplete`) and the path patterns of the verdict are parameters.
- The strict format check of a manifest (`parseCiProofManifest`) is a parameter; the report beside it is not modelled, nor is running the web build.
- Bridge: Discord, typing indicators, server-sent events, peers, files, queues of held messages, the inter-agent watchdog, and the cleanup after killing an agent are not modelled. Whether a registration is admitted, a Stop follows an abort or was caused by a preempting key, and whether closing a socket runs its callback at once are inputs of the events.
- Bridge: debts of a socket that closes without a Stop stay in the book, as in the original; nothing is claimed about when they go.
- StopIsCleanIff: assumes that a request handed over before a Stop arrives bears no later time than the Stop, and one handed over after it a later one, so no two of them fall into the same millisecond in the other order.
- SilentIff: assumes only that a request handed over after a Stop arrived bears no earlier time than the Stop; the same for CleanStopReminded.
- OneNudgePerRequest: assumes a clock that does not read zero at the first of the two Stops, since a reminder at time zero would count as none; RemindersAreCovered assumes it of all Stops.
- Bridge: a request that is forwarded to another agent (`src/bridge/forward.ts:91-92`) or voided by an abort (`src/lib/pending-reply-scope.ts:155-159`) also leaves the book; the model has no event for either.
- BridgeOwners.TakeoverForgetsNothing, LateCloseForgetsNothing, ForgottenOnlyWhenEmpty, FightIsReported: assume one channel per socket; what holds without it is TakeoverOfOneOfMany.
- ReceiptRoundTrip: assumes that the fingerprint of a responsibility has the shape of one, as SHA-256 in hexadecimal does.
- The head and foot of the HTML page are parameters.
- SGR codes are unbounded naturals; precision beyond 2^53 is not modelled. Colour values above 255 go through the same arithmetic as in the original.
- Merge command: the parsing of arguments, `--help`, `verify`, the printed lines, and the reading of the ledger's rules are left out; the ledger's answer is an arbitrary grant or denial. The runner does not throw outside the calls that the original guards; polling ends after a number of rounds given as a parameter, in place of a clock.
- Proof reuse: the facts checked about an origin (`verifyCiReuseOrigin`) are one Boolean of the origin; a command that cannot be started at all is not modelled, nor is a write that fails halfway.
- Process tree: signals, grace periods and cleanup are left out; the order of the tracked processes does not matter and is not kept.
- Edge import and read traces: what `String` makes of a field that is not a string is the input; a condition or state of the wrong type reads as absent, a kind of the wrong type as unknown. Identifiers containing `>` may make two different pairs look the same, as in the original, and the theorems speak of pairs as the original forms them.
- Chunker: chunks may be empty or blank, as in the original; sending and its pauses are left out.
