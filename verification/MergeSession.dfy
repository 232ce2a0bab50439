/**
 * scripts/pm-merge-preflight.ts: one run of the merge command against an arbitrary world, and what its trace may look
 * like.
 */
module MergeSession {
  import opened Sequences
  import opened Text
  import opened PinnedMerge

  // ---- the world and the trace ----

  datatype Auth = Granted(base: string) | Denied

  datatype PrView = PrView(state: string, base: string, draft: bool, crossRepository: bool, head: string)

  datatype MergeAnswer = MergeAnswer(merged: bool, sha: string)

  datatype StepAnswer = StepAnswer(timedOut: bool, code: Option<int>)

  /** Every call with its answer; None is a call that failed or could not be read. */
  datatype Event =
    | Authorized(head: string, auth: Auth)
    | UpdateSent(head: string, accepted: bool)
    | HeadSeen(seen: Option<string>)
    | RunsSeen(head: string, runs: Option<seq<CheckRun>>)
    | PrSeen(view: Option<PrView>)
    | MainSeen(sha: Option<string>)
    | Fetched(head: string, ok: bool)
    | Proved(oldHead: string, newHead: string, mainHead: string, ok: bool)
    | SelectedSeen(head: string, ok: bool)
    | MergeSent(head: string, answer: Option<MergeAnswer>)
    | StepRun(argv: seq<string>, result: StepAnswer)

  type Trace = seq<Event>

  /** What GitHub, git, the ledger and the steps answer may depend on all that happened before, in any way. */
  datatype World = World(
    authorize: (Trace, string) -> Auth, update: (Trace, string) -> bool, headOf: Trace -> Option<string>,
    runs: (Trace, string) -> Option<seq<CheckRun>>, view: Trace -> Option<PrView>, mainOf: Trace -> Option<string>,
    fetch: (Trace, string) -> bool, prove: (Trace, string, string, string) -> bool, selected: (Trace, string) -> bool,
    merge: (Trace, string) -> Option<MergeAnswer>, run: (Trace, seq<string>) -> StepAnswer, late: Trace -> bool)

  datatype Config = Config(
    prOk: bool, expectedHead: string, actualMain: string, checks: Option<seq<string>>, repoDir: bool,
    update: bool, merge: bool, steps: seq<seq<string>>, patience: nat)

  // ---- what a trace may contain ----

  predicate ChecksUsable(checks: seq<string>) {
    checks != [] && (forall c :: c in checks ==> Trim(c) != "") && Distinct(checks)
  }

  predicate OpenAt(view: PrView, head: string) {
    view.state == "OPEN" && view.base == "main" && !view.draft && !view.crossRepository && view.head == head
  }

  predicate NeedsProof(reviewed: string, head: string) {
    reviewed != "" && reviewed != head
  }

  /** What was read of the pull request and main: open at this head, and main where it is expected. */
  predicate InPlace(cfg: Config, head: string, seg: Trace) {
    |seg| == 2
    && seg[0].PrSeen? && seg[0].view.Some?
    && (var v := seg[0].view.value;
        v.state == "OPEN" && v.base == "main" && !v.draft && !v.crossRepository && v.head == head)
    && seg[1] == MainSeen(Some(cfg.actualMain))
  }

  /** A head other than the reviewed one is proved to differ from it by merges of main only, on a fresh fetch. */
  predicate Carried(cfg: Config, reviewed: string, head: string, seg: Trace) {
    if reviewed != "" && reviewed != head then
      cfg.repoDir && IsSha(reviewed) && seg == [Fetched(head, true), Proved(reviewed, head, cfg.actualMain, true)]
    else seg == []
  }

  /** The checks of this head, seen green in this event. */
  predicate SawGreen(cfg: Config, e: Event, head: string) {
    e.RunsSeen? && e.head == head && e.runs.Some? && cfg.checks.Some? && Green(e.runs.value, cfg.checks.value, head)
  }

  predicate GreenRuns(cfg: Config, head: string, seg: Trace) {
    |seg| == 1 && SawGreen(cfg, seg[0], head)
  }

  /** The calls of one preflight, all with the answers it needs to pass, in this order. */
  predicate Passed(cfg: Config, reviewed: string, head: string, seg: Trace) {
    && cfg.prOk && IsSha(head) && IsSha(cfg.actualMain) && cfg.checks.Some?
    && cfg.checks.value != [] && Distinct(cfg.checks.value) && (forall c :: c in cfg.checks.value ==> !Blank(c))
    && |seg| >= 3
    && InPlace(cfg, head, seg[..2])
    && Carried(cfg, reviewed, head, seg[2..|seg| - 1])
    && GreenRuns(cfg, head, seg[|seg| - 1..])
  }

  /** Everything in place and proved, but the checks of the head are not all there yet. */
  predicate Postponed(cfg: Config, reviewed: string, head: string, seg: Trace) {
    && |seg| >= 3
    && InPlace(cfg, head, seg[..2])
    && Carried(cfg, reviewed, head, seg[2..|seg| - 1])
    && seg[|seg| - 1].RunsSeen? && seg[|seg| - 1].head == head && seg[|seg| - 1].runs.Some?
    && cfg.checks.Some? && Undecided(seg[|seg| - 1].runs.value, cfg.checks.value, head)
  }

  /** What makes any preflight of this head pointless, whatever is answered. */
  predicate Unusable(cfg: Config, reviewed: string, head: string) {
    || !cfg.prOk || !IsSha(head) || !IsSha(cfg.actualMain) || cfg.checks.None? || !ChecksUsable(cfg.checks.value)
    || (NeedsProof(reviewed, head) && (!cfg.repoDir || !IsSha(reviewed)))
  }

  /** The update was refused, or the head of the pull request cannot be read or does not move. */
  predicate BadUpdate(cfg: Config, e: Event) {
    match e
    case UpdateSent(_, accepted) => !accepted
    case HeadSeen(seen) => seen.None? || !IsSha(seen.value) || seen.value == cfg.expectedHead
    case _ => false
  }

  /** An answer that ends the run. */
  predicate BadAnswer(cfg: Config, reviewed: string, head: string, e: Event) {
    match e
    case Authorized(_, auth) => auth != Granted(reviewed)
    case UpdateSent(_, _) => BadUpdate(cfg, e)
    case HeadSeen(_) => BadUpdate(cfg, e)
    case RunsSeen(at, runs) => runs.None? || cfg.checks.None? || !Green(runs.value, cfg.checks.value, at)
    case PrSeen(view) => view.None? || !OpenAt(view.value, head)
    case MainSeen(sha) => sha != Some(cfg.actualMain)
    case Fetched(_, ok) => !ok
    case Proved(_, _, _, ok) => !ok
    case SelectedSeen(_, ok) => !ok
    case _ => false
  }

  /** A reason to stop: unusable arguments, or a last answer that is bad. */
  predicate Blocked(cfg: Config, reviewed: string, head: string, t: Trace) {
    Unusable(cfg, reviewed, head) || (t != [] && BadAnswer(cfg, reviewed, head, t[|t| - 1]))
  }

  /** The last look at the checks found them neither green nor doomed. */
  predicate Unfinished(cfg: Config, t: Trace) {
    && t != [] && t[|t| - 1].RunsSeen? && t[|t| - 1].runs.Some? && cfg.checks.Some?
    && Undecided(t[|t| - 1].runs.value, cfg.checks.value, t[|t| - 1].head)
  }

  /** The last look found the pull request where the update left it. */
  predicate Stuck(cfg: Config, t: Trace) {
    t != [] && t[|t| - 1] == HeadSeen(Some(cfg.expectedHead)) && IsSha(cfg.expectedHead)
  }

  /** The last look missed the run of a required check. */
  predicate NotAppeared(cfg: Config, t: Trace) {
    && t != [] && t[|t| - 1].RunsSeen? && t[|t| - 1].runs.Some? && cfg.checks.Some?
    && !Appeared(t[|t| - 1].runs, cfg.checks.value, t[|t| - 1].head)
  }

  predicate PrLookedAt(t: Trace) {
    exists i :: 0 <= i < |t| && t[i].PrSeen?
  }

  /** Nothing is wrong yet: after the update the head or its checks are not there, or in a preflight the checks run. */
  predicate TryLater(cfg: Config, t: Trace) {
    Stuck(cfg, t) || (if PrLookedAt(t) then Unfinished(cfg, t) else NotAppeared(cfg, t))
  }

  predicate IsRead(e: Event) {
    !e.UpdateSent? && !e.MergeSent? && !e.StepRun?
  }

  predicate OnlyReads(t: Trace) {
    forall i :: 0 <= i < |t| ==> IsRead(t[i])
  }

  /** A preflight looks at the pull request before anything else, and at its head only there. */
  predicate LooksFirst(t: Trace) {
    (t != [] ==> t[0].PrSeen?) && forall i :: 0 <= i < |t| ==> !t[i].HeadSeen?
  }

  /** The checks were not looked at. */
  predicate NoRuns(t: Trace) {
    forall i :: 0 <= i < |t| ==> !t[i].RunsSeen? && !t[i].SelectedSeen?
  }

  predicate NoHeads(t: Trace) {
    forall i :: 0 <= i < |t| ==> !t[i].HeadSeen?
  }

  predicate NoSelected(t: Trace) {
    forall i :: 0 <= i < |t| ==> !t[i].SelectedSeen?
  }

  function Confirmed(answer: Option<MergeAnswer>): Option<string> {
    if answer.Some? && answer.value.merged && IsSha(answer.value.sha) then Some(answer.value.sha) else None
  }

  predicate StepOk(r: StepAnswer) {
    !r.timedOut && r.code == Some(0)
  }

  /** The step ended with zero, in time. */
  predicate Zero(r: StepAnswer) {
    r == StepAnswer(false, Some(0))
  }

  /** The first steps, one after the other, each but the last without fault. */
  predicate StepsRan(steps: seq<seq<string>>, t: Trace) {
    && |t| <= |steps|
    && (forall i :: 0 <= i < |t| ==> t[i].StepRun? && t[i].argv == steps[i] && steps[i] != [])
    && (forall i :: 0 <= i < |t| - 1 ==> Zero(t[i].result))
    && (|t| < |steps| ==> steps[|t|] == [] || (t != [] && !Zero(t[|t| - 1].result)))
  }

  predicate AllStepsOk(steps: seq<seq<string>>, t: Trace) {
    |t| == |steps| && forall i :: 0 <= i < |t| ==> t[i].StepRun? && Zero(t[i].result)
  }

  /** One update pinned on the expected head, then looks at the pull request's head. */
  predicate UpdateCalls(cfg: Config, t: Trace) {
    forall i :: 0 <= i < |t| ==> t[i].HeadSeen? || (i == 0 && t[i].UpdateSent? && t[i].head == cfg.expectedHead)
  }

  /** The update was accepted, and the last look found a new head. */
  predicate Updated(cfg: Config, head: string, t: Trace) {
    && |t| >= 2 && t[0] == UpdateSent(cfg.expectedHead, true)
    && (forall i :: 1 <= i < |t| - 1 ==> t[i] == HeadSeen(Some(cfg.expectedHead)))
    && t[|t| - 1] == HeadSeen(Some(head)) && IsSha(head) && head != cfg.expectedHead
  }

  predicate Appeared(runs: Option<seq<CheckRun>>, checks: seq<string>, head: string) {
    runs.Some? && forall c :: c in checks ==> HasRun(runs.value, c, head)
  }

  /** Looks at the checks of the new head until each of them has a run. */
  predicate Waited(cfg: Config, head: string, t: Trace) {
    && cfg.checks.Some?
    && (forall i :: 0 <= i < |t| ==> t[i].RunsSeen? && t[i].head == head)
    && t != [] && Appeared(t[|t| - 1].runs, cfg.checks.value, head)
  }

  /** A preflight that passes and a release marker, if any, that is honoured. */
  predicate Checked(cfg: Config, reviewed: string, head: string, t: Trace) {
    t != [] && Passed(cfg, reviewed, head, t[..|t| - 1]) && t[|t| - 1] == SelectedSeen(head, true)
  }

  /**
   * What a run that sends the merge has gone through; `base` is the reviewed head named by the very first read of the
   * ledger.
   */
  datatype History = History(
    base: string, head: string, moves: Trace, waits: Trace, first: Trace, middle: string, second: Trace,
    answer: Option<MergeAnswer>, steps: Trace)

  function Opening(cfg: Config, h: History): Trace {
    [Authorized(cfg.expectedHead, Granted(h.base))] + h.moves + h.waits
  }

  /** Without an update the head is the expected one; with one it is the head the pull request moved to. */
  predicate Opened(cfg: Config, h: History) {
    if cfg.update then Updated(cfg, h.head, h.moves) && Waited(cfg, h.head, h.waits)
    else h.moves == [] && h.waits == [] && h.head == cfg.expectedHead
  }

  function BeforeMerge(cfg: Config, h: History): Trace {
    Opening(cfg, h) + h.first + [Authorized(h.head, Granted(h.middle))] + h.second
      + [Authorized(h.head, Granted(h.base))]
  }

  /**
   * The trace of such a run: both preflights, the authorizations and the merge are about one head and one reviewed
   * head.
   */
  function Whole(cfg: Config, h: History): Trace {
    BeforeMerge(cfg, h) + [MergeSent(h.head, h.answer)] + h.steps
  }

  predicate Backed(cfg: Config, h: History) {
    && cfg.merge && Opened(cfg, h)
    && Checked(cfg, h.base, h.head, h.first) && Checked(cfg, h.base, h.head, h.second)
    && if Confirmed(h.answer).Some? then StepsRan(cfg.steps, h.steps) else h.steps == []
  }

  function ExitAfterMerge(cfg: Config, h: History): nat {
    if Confirmed(h.answer).None? then 4 else if AllStepsOk(cfg.steps, h.steps) then 0 else 5
  }

  /** Nothing was merged, and at most one update was sent: right after the first authorization, on the expected head. */
  predicate Untouched(cfg: Config, t: Trace) {
    forall i :: 0 <= i < |t| ==>
      && !t[i].MergeSent? && !t[i].StepRun?
      && (t[i].UpdateSent? ==>
            cfg.update && i == 1 && t[i].head == cfg.expectedHead
            && t[0].Authorized? && t[0].head == cfg.expectedHead && t[0].auth.Granted?)
  }

  /** A run that only checks and finds everything in order. */
  predicate CheckedOnly(cfg: Config, h: History, t: Trace) {
    && !cfg.merge && Opened(cfg, h) && Checked(cfg, h.base, h.head, h.first)
    && t == Opening(cfg, h) + h.first + if cfg.update then [] else [Authorized(h.head, Granted(h.middle))]
  }

  datatype Moved = MovedTo(head: string) | NotMoved | MoveFailed

  datatype Wait = Present | Absent | Unreadable

  datatype Start = Ready(reviewed: string, head: string) | StopWith(exit: nat)

  // ---- the calls ----

  class Session {
    const world: World
    var trace: Trace

    constructor (world: World)
      ensures this.world == world && trace == []
    {
      this.world := world;
      trace := [];
    }

    /** The ledger gate, read anew. */
    method Authorize(head: string) returns (auth: Auth)
      modifies this
      ensures trace == old(trace) + [Authorized(head, auth)]
    {
      auth := world.authorize(trace, head);
      trace := trace + [Authorized(head, auth)];
    }

    method Selected(head: string) returns (ok: bool)
      modifies this
      ensures trace == old(trace) + [SelectedSeen(head, ok)]
    {
      ok := world.selected(trace, head);
      trace := trace + [SelectedSeen(head, ok)];
    }

    method HeadChecks(head: string) returns (runs: Option<seq<CheckRun>>)
      modifies this
      ensures trace == old(trace) + [RunsSeen(head, runs)]
    {
      runs := world.runs(trace, head);
      trace := trace + [RunsSeen(head, runs)];
    }

    /** The independent proof that the head is the reviewed one plus merges of main. */
    method ProveCarry(cfg: Config, reviewed: string, head: string) returns (ok: bool)
      modifies this
      ensures old(trace) <= trace && OnlyReads(trace[|old(trace)|..])
      ensures NoRuns(trace[|old(trace)|..]) && NoHeads(trace[|old(trace)|..])
      ensures !ok ==> Blocked(cfg, reviewed, head, trace[|old(trace)|..])
      ensures ok <==> Carried(cfg, reviewed, head, trace[|old(trace)|..])
    {
      if !NeedsProof(reviewed, head) { return true; }
      if !cfg.repoDir || !IsSha(reviewed) { return false; }
      ok := world.fetch(trace, head);
      trace := trace + [Fetched(head, ok)];
      if !ok {
        assert trace[|old(trace)|..] == [Fetched(head, false)];
        return;
      }
      ok := world.prove(trace, reviewed, head, cfg.actualMain);
      trace := trace + [Proved(reviewed, head, cfg.actualMain, ok)];
      assert trace[|old(trace)|..] == [Fetched(head, true), Proved(reviewed, head, cfg.actualMain, ok)];
    }

    method InspectPr(cfg: Config, ghost reviewed: string, head: string) returns (ok: bool)
      modifies this
      ensures old(trace) <= trace && OnlyReads(trace[|old(trace)|..])
      ensures NoRuns(trace[|old(trace)|..]) && NoHeads(trace[|old(trace)|..])
      ensures !ok ==> |trace| > |old(trace)| && BadAnswer(cfg, reviewed, head, trace[|trace| - 1])
      ensures |trace| > |old(trace)| && trace[|old(trace)|].PrSeen?
      ensures ok <==> InPlace(cfg, head, trace[|old(trace)|..])
    {
      var view := world.view(trace);
      trace := trace + [PrSeen(view)];
      if view.None? || !OpenAt(view.value, head) {
        assert trace[|old(trace)|..] == [PrSeen(view)];
        return false;
      }
      var sha := world.mainOf(trace);
      trace := trace + [MainSeen(sha)];
      assert trace[|old(trace)|..] == [PrSeen(view), MainSeen(sha)];
      return sha == Some(cfg.actualMain);
    }

    /** `preflight`. */
    method Preflight(cfg: Config, reviewed: string, head: string) returns (v: Verdict)
      modifies this
      ensures old(trace) <= trace && OnlyReads(trace[|old(trace)|..])
      ensures NoSelected(trace[|old(trace)|..])
      ensures LooksFirst(trace[|old(trace)|..])
      ensures v == Waiting ==> Postponed(cfg, reviewed, head, trace[|old(trace)|..])
      ensures v == Waiting <==> Unfinished(cfg, trace[|old(trace)|..])
      ensures v != Ok ==> Blocked(cfg, reviewed, head, trace[|old(trace)|..])
      ensures v == Ok <==> Passed(cfg, reviewed, head, trace[|old(trace)|..])
    {
      hide InPlace, Carried, Green, HeadVerdict, IsSha, ChecksUsable, Passed, Postponed, OpenAt, NeedsProof;
      if !cfg.prOk || !IsSha(head) || !IsSha(cfg.actualMain) || cfg.checks.None? || !ChecksUsable(cfg.checks.value) {
        NotPassed(cfg, reviewed, head, trace[|old(trace)|..]);
        return Refused;
      }
      ghost var start := trace;
      var ok := InspectPr(cfg, reviewed, head);
      ghost var place := trace[|start|..];
      if !ok {
        NotPassed(cfg, reviewed, head, place);
        return Refused;
      }
      ghost var looked := trace;
      ok := ProveCarry(cfg, reviewed, head);
      ghost var carry := trace[|looked|..];
      assert trace[|start|..] == place + carry;
      if !ok {
        NotPassed(cfg, reviewed, head, place + carry);
        return Refused;
      }
      var runs := HeadChecks(head);
      Assembled(cfg, reviewed, head, place, carry, RunsSeen(head, runs));
      assert trace[|start|..] == place + carry + [RunsSeen(head, runs)];
      if runs.None? { return Refused; }
      v := HeadVerdict(runs.value, cfg.checks.value, head);
      VerdictIsGreen(runs.value, cfg.checks.value, head);
    }

    /** `updateBranch`; `late` and `patience` stand for the clock that bounds the polling. */
    method UpdateBranch(cfg: Config) returns (moved: Moved)
      modifies this
      ensures old(trace) <= trace && UpdateCalls(cfg, trace[|old(trace)|..])
      ensures moved.MovedTo? ==> Updated(cfg, moved.head, trace[|old(trace)|..])
      ensures moved == NotMoved <==> Stuck(cfg, trace[|old(trace)|..])
      ensures !moved.MovedTo? ==> !cfg.prOk || (|trace| > |old(trace)| && BadUpdate(cfg, trace[|trace| - 1]))
    {
      hide IsSha;
      if !cfg.prOk { return MoveFailed; }
      var accepted := world.update(trace, cfg.expectedHead);
      trace := trace + [UpdateSent(cfg.expectedHead, accepted)];
      if !accepted { return MoveFailed; }
      var left := cfg.patience;
      while true
        invariant old(trace) < trace && trace[|old(trace)|] == UpdateSent(cfg.expectedHead, true)
        invariant forall i :: |old(trace)| < i < |trace| ==> trace[i] == HeadSeen(Some(cfg.expectedHead))
        decreases left
      {
        var seen := world.headOf(trace);
        trace := trace + [HeadSeen(seen)];
        if seen.None? || !IsSha(seen.value) { return MoveFailed; }
        if seen.value != cfg.expectedHead { return MovedTo(seen.value); }
        if left == 0 || world.late(trace) { return NotMoved; }
        left := left - 1;
      }
    }

    /** `waitForHeadRuns`. */
    method WaitForHeadRuns(cfg: Config, head: string) returns (w: Wait)
      requires cfg.checks.Some?
      modifies this
      ensures old(trace) <= trace && OnlyReads(trace[|old(trace)|..])
      ensures w == Present ==> Waited(cfg, head, trace[|old(trace)|..])
      ensures w == Absent <==> NotAppeared(cfg, trace[|old(trace)|..])
      ensures forall i :: |old(trace)| <= i < |trace| ==> trace[i].RunsSeen?
      ensures |trace| > |old(trace)| && trace[|trace| - 1].RunsSeen? && trace[|trace| - 1].head == head
      ensures w != Present ==> !Appeared(trace[|trace| - 1].runs, cfg.checks.value, head)
    {
      hide HasRun, IsSha;
      var left := cfg.patience;
      while true
        invariant old(trace) <= trace
        invariant forall i :: |old(trace)| <= i < |trace| ==> trace[i].RunsSeen? && trace[i].head == head
        decreases left
      {
        var runs := HeadChecks(head);
        if runs.None? { return Unreadable; }
        if Appeared(runs, cfg.checks.value, head) { return Present; }
        if left == 0 || world.late(trace) { return Absent; }
        left := left - 1;
      }
    }

    /** `runStrict`: 0 when every step ended with 0. */
    method RunStrict(cfg: Config) returns (ok: bool)
      modifies this
      ensures old(trace) <= trace && StepsRan(cfg.steps, trace[|old(trace)|..])
      ensures ok <==> AllStepsOk(cfg.steps, trace[|old(trace)|..])
    {
      hide StepsRan, AllStepsOk, StepOk, RanFine;
      ghost var ran: Trace := [];
      NothingRan(cfg.steps);
      for i := 0 to |cfg.steps|
        invariant trace == old(trace) + ran && |ran| == i && RanFine(cfg.steps, ran)
      {
        RanMore(cfg.steps, ran);
        assert trace[|old(trace)|..] == ran;
        if cfg.steps[i] == [] { return false; }
        var r := world.run(trace, cfg.steps[i]);
        trace := trace + [StepRun(cfg.steps[i], r)];
        RanAnother(cfg.steps, ran, r);
        ran := ran + [StepRun(cfg.steps[i], r)];
        assert trace[|old(trace)|..] == ran;
        if !StepOk(r) { return false; }
      }
      RanAll(cfg.steps, ran);
      assert trace[|old(trace)|..] == ran;
      return true;
    }

    /** Preflight, then the release marker. */
    method Check(cfg: Config, reviewed: string, head: string) returns (v: Verdict)
      modifies this
      ensures old(trace) <= trace && OnlyReads(trace[|old(trace)|..])
      ensures LooksFirst(trace[|old(trace)|..])
      ensures v == Waiting <==> Unfinished(cfg, trace[|old(trace)|..])
      ensures v != Ok ==> Blocked(cfg, reviewed, head, trace[|old(trace)|..])
      ensures v == Ok <==> Checked(cfg, reviewed, head, trace[|old(trace)|..])
    {
      hide Passed, Undecided;
      v := Preflight(cfg, reviewed, head);
      ghost var seg := trace[|old(trace)|..];
      if v != Ok {
        FailedCheck(cfg, reviewed, head, seg);
        return;
      }
      PassedIsSomething(cfg, reviewed, head, seg);
      var ok := Selected(head);
      assert trace[|old(trace)|..] == seg + [SelectedSeen(head, ok)];
      if !ok { v := Refused; }
    }

    /** The update and the wait for the new head's checks; the exit code where it stops. */
    method MoveHead(cfg: Config) returns (moved: Moved, exit: nat, ghost moves: Trace, ghost waits: Trace)
      requires cfg.checks.Some?
      modifies this
      ensures trace == old(trace) + moves + waits && UpdateCalls(cfg, moves) && OnlyReads(waits) && exit in {2, 3}
      ensures moved.MovedTo? ==> Updated(cfg, moved.head, moves) && Waited(cfg, moved.head, waits)
      ensures !moved.MovedTo? ==> (exit == 3 <==> TryLater(cfg, moves + waits))
      ensures !moved.MovedTo? ==> forall reviewed, head :: Blocked(cfg, reviewed, head, moves + waits)
    {
      hide Updated, Waited, IsSha, Green, Appeared, Stuck, NotAppeared, TryLater;
      moved := UpdateBranch(cfg);
      moves, waits, exit := trace[|old(trace)|..], [], 2;
      if !moved.MovedTo? {
        exit := if moved == NotMoved then 3 else 2;
        WhileMoving(cfg, moves, waits);
        return;
      }
      ghost var asked := trace;
      var seen := WaitForHeadRuns(cfg, moved.head);
      waits := trace[|asked|..];
      assert trace == asked + waits;
      NotGreenYet(trace[|trace| - 1].runs, cfg.checks.value, moved.head);
      WhileMoving(cfg, moves, waits);
      if seen != Present { moved, exit := NotMoved, if seen == Absent then 3 else 2; }
    }

    /** From the first read of the ledger to the head that is to be judged. */
    method Open(cfg: Config) returns (start: Start, ghost h: History)
      requires trace == [] && cfg.checks.Some?
      modifies this
      ensures start.Ready? ==>
        h.base == start.reviewed && h.head == start.head && Opened(cfg, h) && trace == Opening(cfg, h)
      ensures start.StopWith? ==> (start.exit == 3 <==> TryLater(cfg, trace))
      ensures start.StopWith? ==> start.exit in {2, 3} && Untouched(cfg, trace) && Blocked(cfg, h.base, h.head, trace)
    {
      hide Updated, Waited, Unusable, BadAnswer, TryLater;
      var first := Authorize(cfg.expectedHead);
      h := History("", cfg.expectedHead, [], [], [], "", [], None, []);
      if first.Denied? {
        DeniedIsBad(cfg, cfg.expectedHead);
        AskedLast(cfg, [], cfg.expectedHead, first);
        assert trace == [] + [Authorized(cfg.expectedHead, first)];
        return StopWith(2), h;
      }
      h := h.(base := first.base);
      if !cfg.update { return Ready(first.base, cfg.expectedHead), h; }
      var moved, exit;
      ghost var moves, waits;
      moved, exit, moves, waits := MoveHead(cfg);
      assert trace == [Authorized(cfg.expectedHead, first)] + moves + waits;
      if !moved.MovedTo? {
        assert Blocked(cfg, h.base, h.head, moves + waits);
        AfterAsking(cfg, cfg.expectedHead, first, moves + waits);
        assert trace == [Authorized(cfg.expectedHead, first)] + (moves + waits);
        return StopWith(exit), h;
      }
      h := h.(head := moved.head, moves := moves, waits := waits);
      return Ready(first.base, moved.head), h;
    }

    /** `pinnedMerge` and the steps. */
    method Finish(cfg: Config, head: string) returns (exit: nat, ghost answer: Option<MergeAnswer>, ghost steps: Trace)
      modifies this
      ensures trace == old(trace) + [MergeSent(head, answer)] + steps
      ensures if Confirmed(answer).Some? then StepsRan(cfg.steps, steps) else steps == []
      ensures exit == if Confirmed(answer).None? then 4 else if AllStepsOk(cfg.steps, steps) then 0 else 5
    {
      hide StepsRan, AllStepsOk, IsSha;
      var reply := world.merge(trace, head);
      answer, steps := reply, [];
      trace := trace + [MergeSent(head, reply)];
      if Confirmed(reply).None? { return 4, answer, steps; }
      ghost var sent := trace;
      var ok := RunStrict(cfg);
      steps := trace[|sent|..];
      return if ok then 0 else 5, answer, steps;
    }

    /**
     * `main`. Either nothing is merged; or the merge is sent after all a History demands, on the head both preflights
     * judged, with the reviewed head the ledger named before anything was asked of GitHub, and the exit code tells what
     * became of it.
     */
    method MergeCommand(cfg: Config) returns (exit: nat, sent: bool, ghost h: History)
      requires trace == []
      modifies this
      ensures sent ==> Backed(cfg, h) && trace == Whole(cfg, h) && exit == ExitAfterMerge(cfg, h)
      ensures !sent ==> Untouched(cfg, trace) && exit in {0, 2, 3}
      ensures !sent && exit != 0 ==> (exit == 3 <==> TryLater(cfg, trace))
      ensures !sent ==> if exit == 0 then CheckedOnly(cfg, h, trace) else Blocked(cfg, h.base, h.head, trace)
    {
      hide Opened, Opening, Checked, StepsRan, AllStepsOk, Confirmed, TryLater, Unfinished, LooksFirst;
      h := History("", "", [], [], [], "", [], None, []);
      if cfg.checks.None? {
        NothingAsked(cfg);
        return 2, false, h;
      }
      var start;
      start, h := Open(cfg);
      if start.StopWith? { return start.exit, false, h; }
      var reviewed, head := start.reviewed, start.head;
      OpeningUntouched(cfg, h);
      OpeningIsOver(cfg, h);
      ghost var t0 := trace;
      var v := Check(cfg, reviewed, head);
      h := h.(first := trace[|t0|..]);
      SameOpening(cfg, h);
      assert trace == t0 + h.first;
      StillUntouched(cfg, t0, h.first);
      AfterLooking(cfg, t0, h.first);
      if v != Ok { return if v == Refused then 2 else 3, false, h; }
      if cfg.update && !cfg.merge { return 0, false, h; }
      var auth := Authorize(head);
      StillUntouched(cfg, t0 + h.first, [Authorized(head, auth)]);
      AskedLast(cfg, t0 + h.first, head, auth);
      if auth.Denied? { return 2, false, h; }
      h := h.(middle := auth.base);
      if !cfg.merge { return 0, false, h; }
      ghost var t1 := trace;
      v := Check(cfg, reviewed, head);
      h := h.(second := trace[|t1|..]);
      assert trace == t1 + h.second;
      StillUntouched(cfg, t1, h.second);
      AfterLooking(cfg, t1, h.second);
      if v != Ok { return if v == Refused then 2 else 3, false, h; }
      ghost var t2 := trace;
      var last := Authorize(head);
      StillUntouched(cfg, t2, [Authorized(head, last)]);
      AskedLast(cfg, t2, head, last);
      if last.Denied? || last.base != reviewed { return 2, false, h; }
      assert trace == BeforeMerge(cfg, h);
      ghost var answer, steps;
      exit, answer, steps := Finish(cfg, head);
      h := h.(answer := answer, steps := steps);
      return exit, true, h;
    }
  }

  lemma UsableMeans(checks: seq<string>)
    ensures ChecksUsable(checks) <==> checks != [] && Distinct(checks) && forall c :: c in checks ==> !Blank(c)
  {
    hide Trim, Blank, Distinct;
    forall c | c in checks ensures Trim(c) == "" <==> Blank(c) { TrimBlank(c); }
  }

  lemma Assembled(cfg: Config, reviewed: string, head: string, place: Trace, carry: Trace, last: Event)
    requires cfg.prOk && IsSha(head) && IsSha(cfg.actualMain) && cfg.checks.Some? && ChecksUsable(cfg.checks.value)
    requires InPlace(cfg, head, place) && Carried(cfg, reviewed, head, carry)
    ensures Passed(cfg, reviewed, head, place + carry + [last]) <==> GreenRuns(cfg, head, [last])
    ensures
      (last.RunsSeen? && last.head == head && last.runs.Some?
       && Undecided(last.runs.value, cfg.checks.value, head)) ==>
        Postponed(cfg, reviewed, head, place + carry + [last])
  {
    hide Carried, GreenRuns, IsSha, ChecksUsable, Undecided, Distinct, Blank;
    UsableMeans(cfg.checks.value);
    var seg := place + carry + [last];
    assert seg[..2] == place && seg[2..|seg| - 1] == carry && seg[|seg| - 1..] == [last];
  }

  /** The first steps ran, each without fault. */
  predicate RanFine(steps: seq<seq<string>>, t: Trace) {
    && |t| <= |steps|
    && forall i :: 0 <= i < |t| ==> t[i].StepRun? && t[i].argv == steps[i] && steps[i] != [] && StepOk(t[i].result)
  }

  lemma NothingRan(steps: seq<seq<string>>)
    ensures RanFine(steps, [])
  {}

  lemma RanMore(steps: seq<seq<string>>, t: Trace)
    requires RanFine(steps, t) && |t| < |steps|
    ensures steps[|t|] == [] ==> StepsRan(steps, t) && !AllStepsOk(steps, t)
  {
  }

  lemma RanAnother(steps: seq<seq<string>>, t: Trace, r: StepAnswer)
    requires RanFine(steps, t) && |t| < |steps| && steps[|t|] != []
    ensures var t' := t + [StepRun(steps[|t|], r)];
      if StepOk(r) then RanFine(steps, t') else StepsRan(steps, t') && !AllStepsOk(steps, t')
  {
    var t' := t + [StepRun(steps[|t|], r)];
    assert t'[|t|].result == r;
    forall i | 0 <= i < |t| ensures t'[i] == t[i] {}
  }

  lemma RanAll(steps: seq<seq<string>>, t: Trace)
    requires RanFine(steps, t) && |t| == |steps|
    ensures StepsRan(steps, t) && AllStepsOk(steps, t)
  {
  }

  lemma NotGreenYet(runs: Option<seq<CheckRun>>, checks: seq<string>, head: string)
    ensures Appeared(runs, checks, head) || runs.None? || !Green(runs.value, checks, head)
  {
    hide Succeeded, HasRun;
    if runs.Some? && Green(runs.value, checks, head) {
      forall c | c in checks ensures HasRun(runs.value, c, head) { SuccessIsRun(runs.value, c, head); }
    }
  }

  lemma PassedIsSomething(cfg: Config, reviewed: string, head: string, seg: Trace)
    ensures Passed(cfg, reviewed, head, seg) ==> seg != []
  {}

  // ---- whether trying again helps ----

  lemma NothingAsked(cfg: Config)
    ensures !TryLater(cfg, [])
  {}

  lemma AskedLast(cfg: Config, t: Trace, head: string, auth: Auth)
    ensures !TryLater(cfg, t + [Authorized(head, auth)])
  {}

  lemma AfterAsking(cfg: Config, head: string, auth: Auth, t: Trace)
    ensures TryLater(cfg, [Authorized(head, auth)] + t) <==> TryLater(cfg, t)
  {
    hide Appeared, Undecided, IsSha;
    var all := [Authorized(head, auth)] + t;
    if i :| 0 <= i < |t| && t[i].PrSeen? { assert all[i + 1].PrSeen?; }
  }

  /** Up to the first preflight only the update's own looks count. */
  lemma WhileMoving(cfg: Config, moves: Trace, waits: Trace)
    requires UpdateCalls(cfg, moves) && forall i :: 0 <= i < |waits| ==> waits[i].RunsSeen?
    ensures TryLater(cfg, moves + waits) <==> if waits == [] then Stuck(cfg, moves) else NotAppeared(cfg, waits)
  {
    hide Appeared, Undecided, IsSha;
    if waits == [] { assert moves + waits == moves; }
  }

  lemma OpeningIsOver(cfg: Config, h: History)
    requires Opened(cfg, h)
    ensures !TryLater(cfg, Opening(cfg, h))
  {
    hide Appeared, Undecided, IsSha;
    AfterAsking(cfg, cfg.expectedHead, Granted(h.base), h.moves + h.waits);
    assert Opening(cfg, h) == [Authorized(cfg.expectedHead, Granted(h.base))] + (h.moves + h.waits);
    if cfg.update { WhileMoving(cfg, h.moves, h.waits); }
  }

  lemma AfterLooking(cfg: Config, before: Trace, seg: Trace)
    requires !TryLater(cfg, before) && LooksFirst(seg)
    ensures TryLater(cfg, before + seg) <==> Unfinished(cfg, seg)
  {
    hide Appeared, Undecided, IsSha;
    if seg == [] { assert before + seg == before; } else { assert (before + seg)[|before|].PrSeen?; }
  }

  lemma DeniedIsBad(cfg: Config, head: string)
    ensures BadAnswer(cfg, "", head, Authorized(head, Denied))
  {}

  lemma NotPassed(cfg: Config, reviewed: string, head: string, seg: Trace)
    requires NoRuns(seg)
    ensures !Passed(cfg, reviewed, head, seg)
  {}

  lemma FailedCheck(cfg: Config, reviewed: string, head: string, seg: Trace)
    requires NoSelected(seg)
    ensures !Checked(cfg, reviewed, head, seg)
  {}

  /** Reads may follow without touching anything. */
  lemma StillUntouched(cfg: Config, t: Trace, more: Trace)
    requires Untouched(cfg, t) && OnlyReads(more)
    ensures Untouched(cfg, t + more)
  {}

  lemma OpeningUntouched(cfg: Config, h: History)
    requires Opened(cfg, h)
    ensures Untouched(cfg, Opening(cfg, h))
  {
    hide IsSha, Appeared;
  }

  lemma SameOpening(cfg: Config, h: History)
    ensures forall first, middle, second, answer, steps ::
      var h' := h.(first := first, middle := middle, second := second, answer := answer, steps := steps);
      Opening(cfg, h') == Opening(cfg, h) && (Opened(cfg, h') <==> Opened(cfg, h))
  {}

  // ---- what such a trace shows ----

  lemma CheckedEnds(cfg: Config, reviewed: string, head: string, t: Trace)
    requires Checked(cfg, reviewed, head, t)
    ensures |t| >= 4 && SawGreen(cfg, t[|t| - 2], head) && OnlyReads(t)
    ensures NeedsProof(reviewed, head) ==> |t| >= 6 && t[|t| - 3] == Proved(reviewed, head, cfg.actualMain, true)
  {
    hide Green, IsSha, ChecksUsable;
    var seg := t[..|t| - 1];
    assert seg[|seg| - 1..][0] == seg[|seg| - 1];
    var carry := seg[2..|seg| - 1];
    assert seg == seg[..2] + carry + [seg[|seg| - 1]];
    if NeedsProof(reviewed, head) { assert carry[1] == seg[3]; }
  }

  /**
   * In the trace of a run that merges there is one merge; before it nothing but reads and the update, after it nothing
   * but the steps.
   */
  lemma OneMerge(cfg: Config, h: History, i: nat)
    requires Backed(cfg, h) && i < |Whole(cfg, h)|
    ensures Whole(cfg, h)[i].MergeSent? <==> i == |BeforeMerge(cfg, h)|
    ensures Whole(cfg, h)[i].StepRun? <==> i > |BeforeMerge(cfg, h)|
    ensures Whole(cfg, h)[i].UpdateSent? ==> cfg.update && i == 1 && Whole(cfg, h)[i].head == cfg.expectedHead
  {
    hide Opened, Checked, Opening;
    OpeningUntouched(cfg, h);
    CheckedEnds(cfg, h.base, h.head, h.first);
    CheckedEnds(cfg, h.base, h.head, h.second);
    StillUntouched(cfg, Opening(cfg, h), h.first);
    StillUntouched(cfg, Opening(cfg, h) + h.first, [Authorized(h.head, Granted(h.middle))]);
    StillUntouched(cfg, Opening(cfg, h) + h.first + [Authorized(h.head, Granted(h.middle))], h.second);
    StillUntouched(cfg, Opening(cfg, h) + h.first + [Authorized(h.head, Granted(h.middle))] + h.second,
      [Authorized(h.head, Granted(h.base))]);
  }

  /** At j and k the checks of this head were seen green; the proof, where one is needed, came right before. */
  predicate GuardedAt(cfg: Config, base: string, head: string, t: Trace, j: nat, k: nat) {
    && 1 <= j < k < |t|
    && SawGreen(cfg, t[j], head) && SawGreen(cfg, t[k], head) && OnlyReads(t[k..])
    && (NeedsProof(base, head) ==>
      t[j - 1] == Proved(base, head, cfg.actualMain, true) && t[k - 1] == Proved(base, head, cfg.actualMain, true))
  }

  /**
   * The merge pins the head whose checks were seen green twice before, the second time with nothing but reads in
   * between; if that head is not the reviewed one, it was proved from the reviewed one each time; and the ledger's last
   * word right before the merge names the same reviewed head as its first word of all.
   */
  lemma MergeIsGuarded(cfg: Config, h: History)
    requires Backed(cfg, h)
    ensures var t := BeforeMerge(cfg, h);
      && t[|t| - 1] == Authorized(h.head, Granted(h.base)) && t[0] == Authorized(cfg.expectedHead, Granted(h.base))
      && exists j: nat, k: nat :: GuardedAt(cfg, h.base, h.head, t, j, k)
  {
    hide Opened, Checked, SawGreen, Confirmed, NeedsProof, GuardedAt;
    CheckedEnds(cfg, h.base, h.head, h.first);
    CheckedEnds(cfg, h.base, h.head, h.second);
    var open, between, last :=
      Opening(cfg, h), [Authorized(h.head, Granted(h.middle))], [Authorized(h.head, Granted(h.base))];
    assert BeforeMerge(cfg, h) == open + h.first + between + h.second + last;
    GuardedBy(cfg, h.base, h.head, open, h.first, between, h.second, last[0]);
  }

  lemma GuardedBy(cfg: Config, base: string, head: string, open: Trace, first: Trace, between: Trace, second: Trace,
      last: Event)
    requires open != [] && |first| >= 4 && SawGreen(cfg, first[|first| - 2], head) && OnlyReads(first)
    requires |second| >= 4 && SawGreen(cfg, second[|second| - 2], head) && OnlyReads(second) && IsRead(last)
    requires NeedsProof(base, head) ==>
      first[|first| - 3] == Proved(base, head, cfg.actualMain, true)
        && second[|second| - 3] == Proved(base, head, cfg.actualMain, true)
    ensures exists j: nat, k: nat :: GuardedAt(cfg, base, head, open + first + between + second + [last], j, k)
  {
    hide SawGreen, NeedsProof;
    var t := open + first + between + second + [last];
    var j, k := |open| + |first| - 2, |t| - 3;
    assert t == open + first + (between + second + [last]);
    assert GuardedAt(cfg, base, head, t, j, k);
  }

  /**
   * Four after a merge that GitHub did not confirm with a full commit name, and then no step ran; zero when it did and
   * every step ran and ended with zero; five otherwise.
   */
  lemma ZeroAfterMerge(cfg: Config, h: History)
    requires Backed(cfg, h)
    ensures ExitAfterMerge(cfg, h) in {0, 4, 5}
    ensures ExitAfterMerge(cfg, h) == 4 <==> h.answer.None? || !h.answer.value.merged || !IsSha(h.answer.value.sha)
    ensures ExitAfterMerge(cfg, h) == 4 ==> h.steps == []
    ensures ExitAfterMerge(cfg, h) == 0 <==>
      && h.answer.Some? && h.answer.value.merged && IsSha(h.answer.value.sha) && |h.steps| == |cfg.steps|
      && forall i :: 0 <= i < |h.steps| ==>
        h.steps[i].argv == cfg.steps[i] && h.steps[i].result == StepAnswer(false, Some(0))
  {
    hide Opened, Checked, IsSha;
  }
}
