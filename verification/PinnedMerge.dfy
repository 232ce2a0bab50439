/**
 * scripts/pm-merge-preflight.ts: the pinned merge of a pull request. GitHub, git and the ledger may answer anything at
 * any time; every call and its answer goes on a trace, and what the protocol promises is said about that trace.
 */
module PinnedMerge {
  import opened Sequences
  import opened Text

  // ---- required checks on a head (src/lib/review-main-carry-manual-ci.ts) ----

  datatype CheckRun = CheckRun(id: nat, name: string, head: string, status: string, conclusion: string)

  datatype CheckState = Pass | Fail | Cancelled | Skipped | Pending | Missing | Unknown

  const LIGHT := "ci scope light"
  const FULL := "ci scope full"
  const FAILED: seq<string> := ["failure", "timed_out", "action_required", "startup_failure"]

  /** The run with the highest id under this name on exactly this head; the first one listed among equals. */
  function Newest(runs: seq<CheckRun>, name: string, head: string): Option<CheckRun> {
    if runs == [] then None
    else
      var best, last := Newest(runs[..|runs| - 1], name, head), runs[|runs| - 1];
      if last.name == name && last.head == head && (best.None? || best.value.id < last.id) then Some(last) else best
  }

  function StateOf(run: Option<CheckRun>): CheckState {
    if run.None? then Missing
    else if run.value.status != "completed" then Pending
    else if run.value.conclusion == "success" then Pass
    else if run.value.conclusion in FAILED then Fail
    else if run.value.conclusion == "cancelled" then Cancelled
    else if run.value.conclusion == "skipped" then Skipped
    else Unknown
  }

  function StateIn(runs: seq<CheckRun>, name: string, head: string): CheckState {
    StateOf(Newest(runs, name, head))
  }

  datatype Named = Named(name: string, state: CheckState)

  /** The states to judge: every required name, and the two scope markers where they exist or are required. */
  function Judged(runs: seq<CheckRun>, names: seq<string>, checks: seq<string>, head: string): seq<Named> {
    if names == [] then []
    else
      var state := StateIn(runs, names[0], head);
      (if names[0] in [LIGHT, FULL] && state == Missing && names[0] !in checks then [] else [Named(names[0], state)])
      + Judged(runs, names[1..], checks, head)
  }

  datatype Verdict = Ok | Refused | Waiting

  predicate LightOnly(states: seq<Named>) {
    (exists s :: s in states && s.name == LIGHT) && !exists s :: s in states && s.name == FULL && s.state == Pass
  }

  predicate SomeIn(states: seq<Named>, bad: set<CheckState>) {
    exists s :: s in states && s.state in bad
  }

  /** `ciVerdict`. */
  function CiVerdict(states: seq<Named>): Verdict {
    if SomeIn(states, {Fail, Cancelled, Skipped, Unknown}) then Refused
    else if SomeIn(states, {Missing}) then Refused
    else if LightOnly(states) then Waiting
    else if SomeIn(states, {Pending}) then Waiting
    else Ok
  }

  function HeadVerdict(runs: seq<CheckRun>, checks: seq<string>, head: string): Verdict {
    CiVerdict(Judged(runs, Dedup(checks + [LIGHT, FULL]), checks, head))
  }

  // ---- the verdict in terms of the runs ----

  predicate HasRun(runs: seq<CheckRun>, name: string, head: string) {
    exists i :: 0 <= i < |runs| && runs[i].name == name && runs[i].head == head
  }

  /**
   * Of the runs of this name on exactly this head, the one at i has the highest id, and is listed first among equals.
   */
  predicate IsLatest(runs: seq<CheckRun>, i: nat, name: string, head: string) {
    && i < |runs| && runs[i].name == name && runs[i].head == head
    && forall j :: 0 <= j < |runs| && j != i && runs[j].name == name && runs[j].head == head ==>
         runs[j].id < runs[i].id || (runs[j].id == runs[i].id && i < j)
  }

  predicate Succeeded(runs: seq<CheckRun>, name: string, head: string) {
    exists i :: 0 <= i < |runs| && IsLatest(runs, i, name, head)
      && runs[i].status == "completed" && runs[i].conclusion == "success"
  }

  predicate EndedBadly(runs: seq<CheckRun>, name: string, head: string) {
    exists i :: 0 <= i < |runs| && IsLatest(runs, i, name, head)
      && runs[i].status == "completed" && runs[i].conclusion != "success"
  }

  /**
   * The latest run of every required name on this very head is a completed success; a light run, where there is one, is
   * such a success beside a full one; and so is a full run, where there is one.
   */
  predicate Green(runs: seq<CheckRun>, checks: seq<string>, head: string) {
    && (forall c :: c in checks ==> Succeeded(runs, c, head))
    && (HasRun(runs, "ci scope light", head) ==>
          Succeeded(runs, "ci scope light", head) && Succeeded(runs, "ci scope full", head))
    && (HasRun(runs, "ci scope full", head) ==> Succeeded(runs, "ci scope full", head))
  }

  /** A required name has no run, or the latest run of a required name or of a scope marker ended without success. */
  predicate Doomed(runs: seq<CheckRun>, checks: seq<string>, head: string) {
    || (exists c :: c in checks && !HasRun(runs, c, head))
    || (exists c :: c in checks + ["ci scope light", "ci scope full"] && EndedBadly(runs, c, head))
  }

  /** Neither green nor doomed: something is still running, or only a light run is there. */
  predicate Undecided(runs: seq<CheckRun>, checks: seq<string>, head: string) {
    !Green(runs, checks, head) && !Doomed(runs, checks, head)
  }

  lemma SuccessIsRun(runs: seq<CheckRun>, name: string, head: string)
    requires Succeeded(runs, name, head)
    ensures HasRun(runs, name, head)
  {}

  /** The run that is judged is the latest one. */
  lemma {:induction false} NewestIsLatest(runs: seq<CheckRun>, name: string, head: string) returns (i: nat)
    ensures Newest(runs, name, head).None? <==> !HasRun(runs, name, head)
    ensures Newest(runs, name, head).Some? ==>
      IsLatest(runs, i, name, head) && runs[i] == Newest(runs, name, head).value
  {
    i := 0;
    if runs != [] {
      var init, last := runs[..|runs| - 1], |runs| - 1;
      i := NewestIsLatest(init, name, head);
      forall j | 0 <= j < |init| ensures init[j] == runs[j] {}
      var best := Newest(init, name, head);
      if runs[last].name == name && runs[last].head == head && (best.None? || best.value.id < runs[last].id) {
        i := last;
      } else if best.None? {
        assert !HasRun(runs, name, head);
      }
    }
  }

  lemma OneLatest(runs: seq<CheckRun>, name: string, head: string, i: nat, j: nat)
    requires IsLatest(runs, i, name, head) && IsLatest(runs, j, name, head)
    ensures i == j
  {}

  /** What the states say about the runs. */
  lemma StateSays(runs: seq<CheckRun>, name: string, head: string)
    ensures StateIn(runs, name, head) == Missing <==> !HasRun(runs, name, head)
    ensures StateIn(runs, name, head) == Pass <==> Succeeded(runs, name, head)
    ensures StateIn(runs, name, head) in {Fail, Cancelled, Skipped, Unknown} <==> EndedBadly(runs, name, head)
    ensures forall i :: 0 <= i < |runs| && IsLatest(runs, i, name, head) && runs[i].status == "completed" ==>
      && (StateIn(runs, name, head) == Cancelled <==> runs[i].conclusion == "cancelled")
      && (StateIn(runs, name, head) == Skipped <==> runs[i].conclusion == "skipped")
      && (StateIn(runs, name, head) == Fail <==>
            runs[i].conclusion in {"failure", "timed_out", "action_required", "startup_failure"})
  {
    hide IsLatest;
    var k := NewestIsLatest(runs, name, head);
    forall i | 0 <= i < |runs| && IsLatest(runs, i, name, head)
      ensures Newest(runs, name, head) == Some(runs[i])
    {
      LatestHasRun(runs, name, head, i);
      OneLatest(runs, name, head, i, k);
    }
  }

  lemma LatestHasRun(runs: seq<CheckRun>, name: string, head: string, i: nat)
    requires IsLatest(runs, i, name, head)
    ensures HasRun(runs, name, head)
  {}

  lemma JudgedMembers(runs: seq<CheckRun>, names: seq<string>, checks: seq<string>, head: string, s: Named)
    ensures s in Judged(runs, names, checks, head) <==>
      && s.name in names && s.state == StateIn(runs, s.name, head)
      && !(s.name in [LIGHT, FULL] && s.state == Missing && s.name !in checks)
  {
    hide StateIn;
    if names != [] {
      JudgedMembers(runs, names[1..], checks, head, s);
      assert names == [names[0]] + names[1..];
    }
  }

  lemma OkMeansAllPass(states: seq<Named>)
    ensures CiVerdict(states) == Ok <==> (forall s :: s in states ==> s.state == Pass) && !LightOnly(states)
  {
    hide LightOnly;
    if CiVerdict(states) == Ok {
      forall s | s in states ensures s.state == Pass {
        assert s.state !in {Fail, Cancelled, Skipped, Unknown} && s.state !in {Missing} && s.state !in {Pending};
      }
    }
  }

  lemma RefusedMeansBad(states: seq<Named>)
    ensures CiVerdict(states) == Refused <==>
      exists s :: s in states && s.state in {Fail, Cancelled, Skipped, Unknown, Missing}
  {}

  /** The states judged are those of the names, but for a scope marker that is neither there nor required. */
  ghost predicate Judges(states: seq<Named>, runs: seq<CheckRun>, checks: seq<string>, head: string) {
    forall s :: s in states <==>
      && s.name in checks + [LIGHT, FULL] && s.state == StateIn(runs, s.name, head)
      && !(s.name in [LIGHT, FULL] && s.state == Missing && s.name !in checks)
  }

  lemma AllPassIsGreen(states: seq<Named>, runs: seq<CheckRun>, checks: seq<string>, head: string)
    requires Judges(states, runs, checks, head)
    ensures (forall s :: s in states ==> s.state == Pass) && !LightOnly(states) <==> Green(runs, checks, head)
  {
    hide StateIn, Succeeded, HasRun;
    var light, full := Named(LIGHT, StateIn(runs, LIGHT, head)), Named(FULL, StateIn(runs, FULL, head));
    assert LIGHT in checks + [LIGHT, FULL] && FULL in checks + [LIGHT, FULL];
    StateSays(runs, LIGHT, head);
    StateSays(runs, FULL, head);
    forall c | c in checks
      ensures Named(c, StateIn(runs, c, head)) in states
      ensures StateIn(runs, c, head) == Pass <==> Succeeded(runs, c, head)
    {
      StateSays(runs, c, head);
    }
    assert light in states <==> LIGHT in checks || HasRun(runs, LIGHT, head);
    assert full in states <==> FULL in checks || HasRun(runs, FULL, head);
    forall s | s in states ensures s == light || s == full || s.name in checks {}
  }

  lemma BadIsDoomed(states: seq<Named>, runs: seq<CheckRun>, checks: seq<string>, head: string)
    requires Judges(states, runs, checks, head)
    ensures (exists s :: s in states && s.state in {Fail, Cancelled, Skipped, Unknown, Missing}) <==>
      Doomed(runs, checks, head)
  {
    hide StateIn, EndedBadly, HasRun;
    forall c | c in checks + [LIGHT, FULL]
      ensures var s := Named(c, StateIn(runs, c, head));
        && (s in states <==> c in checks || HasRun(runs, c, head))
        && (s.state == Missing <==> !HasRun(runs, c, head))
        && (s.state in {Fail, Cancelled, Skipped, Unknown} <==> EndedBadly(runs, c, head))
    {
      StateSays(runs, c, head);
    }
    if c :| c in checks && !HasRun(runs, c, head) { assert Named(c, StateIn(runs, c, head)) in states; }
    if c :| c in checks + [LIGHT, FULL] && EndedBadly(runs, c, head) {
      assert Named(c, StateIn(runs, c, head)) in states;
    }
    if s :| s in states && s.state in {Fail, Cancelled, Skipped, Unknown, Missing} {
      assert s == Named(s.name, StateIn(runs, s.name, head));
    }
  }

  /** The verdict on a head is positive exactly when it is green, and negative for good exactly when it is doomed. */
  lemma VerdictIsGreen(runs: seq<CheckRun>, checks: seq<string>, head: string)
    ensures HeadVerdict(runs, checks, head) == Ok <==> Green(runs, checks, head)
    ensures HeadVerdict(runs, checks, head) == Refused <==> Doomed(runs, checks, head)
  {
    hide StateIn, CiVerdict, Judged, LightOnly, Green, Doomed;
    var names := Dedup(checks + [LIGHT, FULL]);
    var states := Judged(runs, names, checks, head);
    OkMeansAllPass(states);
    RefusedMeansBad(states);
    forall s ensures s in states <==>
      && s.name in checks + [LIGHT, FULL] && s.state == StateIn(runs, s.name, head)
      && !(s.name in [LIGHT, FULL] && s.state == Missing && s.name !in checks)
    {
      JudgedMembers(runs, names, checks, head, s);
    }
    AllPassIsGreen(states, runs, checks, head);
    BadIsDoomed(states, runs, checks, head);
  }

  /** The newest run: no other run of that name on that head has a higher id. */
  lemma {:induction false} NewestIsNewest(runs: seq<CheckRun>, name: string, head: string)
    ensures Newest(runs, name, head).None? <==>
      forall i :: 0 <= i < |runs| ==> !(runs[i].name == name && runs[i].head == head)
    ensures var r := Newest(runs, name, head); r.Some? ==>
      && r.value.name == name && r.value.head == head && r.value in runs
      && forall i :: 0 <= i < |runs| && runs[i].name == name && runs[i].head == head ==> runs[i].id <= r.value.id
  {
    if runs != [] {
      var init := runs[..|runs| - 1];
      NewestIsNewest(init, name, head);
      forall i | 0 <= i < |init| ensures init[i] == runs[i] {}
    }
  }
}
