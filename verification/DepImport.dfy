/**
 * scripts/ledger-import-deps.ts: planning which dependency edges of a JSON file still have to be added to the ledger.
 */
module DepImport {
  import opened Sequences
  import opened Text

  const WHEN_MAX := 60
  const KINDS: seq<string> := ["blocks", "branch"]
  const STATES: seq<string> := ["waiting", "active", "done"]

  datatype Task = Task(id: string, project: string)

  /**
   * An edge as read: both ends are what `String` makes of the fields, and empty where there is none; a condition or
   * state that is not a string reads as absent, a kind that is not a string as an unknown one.
   */
  datatype Edge = Edge(source: string, target: string, when: Option<string>, kind: Option<string>,
    state: Option<string>)

  datatype Planned = Planned(
    source: string, target: string, when: string, kind: string, state: Option<string>, jsonState: Option<string>,
    derived: string, dedup: string)

  datatype Reason =
    | NoTask(missing: seq<string>)
    | OtherProject(task: string)
    | Repeated
    | Known
    | Removed
    | NoCondition
    | ConditionTooLong
    | UnknownKind
    | UnknownState

  datatype Skipped = Skipped(source: string, target: string, reason: Reason)

  /**
   * Everything the plan depends on besides the edges; `derive` is the state that follows from the stage of its source.
   */
  datatype Context = Context(
    project: string, tasks: map<string, Task>, existing: set<string>, usedKeys: set<string>, keepState: bool,
    derive: (string, Task) -> string)

  function PairOf(source: string, target: string): string {
    source + ">" + target
  }

  function Pair(e: Edge): string {
    PairOf(e.source, e.target)
  }

  function DedupKey(e: Edge): string {
    "deps-json:" + Pair(e)
  }

  function When(e: Edge): string {
    Trim(e.when.GetOr(""))
  }

  function Kind(e: Edge): string {
    e.kind.GetOr("blocks")
  }

  function MissingEnds(e: Edge, c: Context): seq<string> {
    (if e.source in c.tasks then [] else [e.source]) + (if e.target in c.tasks then [] else [e.target])
  }

  /** `skipReason`: both ends have to be tasks of this project. */
  function EndsReason(e: Edge, c: Context): Option<Reason> {
    if MissingEnds(e, c) != [] then Some(NoTask(MissingEnds(e, c)))
    else if c.tasks[e.source].project != c.project then Some(OtherProject(e.source))
    else if c.tasks[e.target].project != c.project then Some(OtherProject(e.target))
    else None
  }

  function ReasonFor(e: Edge, c: Context, inJson: set<string>): Option<Reason> {
    if EndsReason(e, c).Some? then EndsReason(e, c)
    else if Pair(e) in inJson then Some(Repeated)
    else if Pair(e) in c.existing then Some(Known)
    else if DedupKey(e) in c.usedKeys then Some(Removed)
    else if When(e) == "" then Some(NoCondition)
    else if |When(e)| > WHEN_MAX then Some(ConditionTooLong)
    else if Kind(e) !in KINDS then Some(UnknownKind)
    else if c.keepState && e.state.Some? && e.state.value !in STATES then Some(UnknownState)
    else None
  }

  function PlannedFor(e: Edge, c: Context): Planned
    requires e.source in c.tasks
  {
    var state, derived := if c.keepState then e.state else None, c.derive(Kind(e), c.tasks[e.source]);
    Planned(e.source, e.target, When(e), Kind(e), state, e.state, derived, DedupKey(e))
  }

  // ---- the decisions ----

  datatype Decision = Take(planned: Planned) | Leave(skipped: Skipped)

  function DecisionFor(e: Edge, c: Context, inJson: set<string>): Decision {
    match ReasonFor(e, c, inJson)
    case Some(reason) => Leave(Skipped(e.source, e.target, reason))
    case None => EndsKnown(e, c); Take(PlannedFor(e, c))
  }

  lemma EndsKnown(e: Edge, c: Context)
    requires EndsReason(e, c).None?
    ensures e.source in c.tasks && e.target in c.tasks
      && c.tasks[e.source].project == c.project == c.tasks[e.target].project
  {}

  /** The pairs taken so far. */
  function TakenIn(ds: seq<Decision>): set<string> {
    set i | 0 <= i < |ds| && ds[i].Take? :: PairOf(ds[i].planned.source, ds[i].planned.target)
  }

  /** One decision per edge, in order; only what was taken counts as seen. */
  function Decisions(edges: seq<Edge>, c: Context): (ds: seq<Decision>)
    ensures |ds| == |edges|
  {
    if edges == [] then []
    else
      var before := Decisions(edges[..|edges| - 1], c);
      before + [DecisionFor(edges[|edges| - 1], c, TakenIn(before))]
  }

  function Adds(ds: seq<Decision>): seq<Planned> {
    if ds == [] then [] else Adds(ds[..|ds| - 1]) + if ds[|ds| - 1].Take? then [ds[|ds| - 1].planned] else []
  }

  function Skips(ds: seq<Decision>): seq<Skipped> {
    if ds == [] then [] else Skips(ds[..|ds| - 1]) + if ds[|ds| - 1].Leave? then [ds[|ds| - 1].skipped] else []
  }

  datatype Plan = Plan(add: seq<Planned>, skipped: seq<Skipped>)

  function PlanOf(edges: seq<Edge>, c: Context): Plan {
    Plan(Adds(Decisions(edges, c)), Skips(Decisions(edges, c)))
  }

  /** `planDepImport`; without an array of edges there is no plan. */
  method PlanDepImport(edges: Option<seq<Edge>>, c: Context) returns (plan: Option<Plan>)
    ensures plan == match edges case None => None case Some(es) => Some(PlanOf(es, c))
  {
    if edges.None? { return None; }
    hide ReasonFor, PlannedFor;
    var es := edges.value;
    var inJson: set<string> := {};
    var add, skipped := [], [];
    for i := 0 to |es|
      invariant inJson == TakenIn(Decisions(es[..i], c))
      invariant add == Adds(Decisions(es[..i], c)) && skipped == Skips(Decisions(es[..i], c))
    {
      var e := es[i];
      assert es[..i + 1][..i] == es[..i];
      TakenSnoc(Decisions(es[..i], c), DecisionFor(e, c, inJson));
      PlannedPair(e, c, inJson);
      var d := DecisionFor(e, c, inJson);
      if d.Leave? {
        skipped := skipped + [d.skipped];
      } else {
        inJson := inJson + {Pair(e)};
        add := add + [d.planned];
      }
    }
    assert es[..|es|] == es;
    return Some(Plan(add, skipped));
  }

  lemma TakenSnoc(ds: seq<Decision>, d: Decision)
    ensures TakenIn(ds + [d]) == TakenIn(ds) + if d.Take? then {PairOf(d.planned.source, d.planned.target)} else {}
    ensures (ds + [d])[..|ds|] == ds
  {
    var all := ds + [d];
    forall p ensures p in TakenIn(all) <==>
      p in TakenIn(ds) || (d.Take? && p == PairOf(d.planned.source, d.planned.target)) {
      if p in TakenIn(ds) {
        var i :| 0 <= i < |ds| && ds[i].Take? && PairOf(ds[i].planned.source, ds[i].planned.target) == p;
        assert all[i] == ds[i];
      }
      if d.Take? { assert all[|ds|] == d; }
    }
  }

  lemma PlannedPair(e: Edge, c: Context, inJson: set<string>)
    ensures var d := DecisionFor(e, c, inJson);
      d.Take? ==> PairOf(d.planned.source, d.planned.target) == Pair(e)
  {}

  // ---- what a plan means ----

  /** Nothing is wrong with the edge itself, and the ledger neither has it nor has had it from an earlier import. */
  predicate Wanted(e: Edge, c: Context) {
    && e.source in c.tasks && e.target in c.tasks && c.tasks[e.source].project == c.project == c.tasks[e.target].project
    && e.source + ">" + e.target !in c.existing && "deps-json:" + (e.source + ">" + e.target) !in c.usedKeys
    && e.when.Some? && !Blank(e.when.value) && |Trim(e.when.value)| <= 60
    && (e.kind.Some? ==> e.kind.value in ["blocks", "branch"])
    && (c.keepState && e.state.Some? ==> e.state.value in ["waiting", "active", "done"])
  }

  lemma WhenBlank(e: Edge)
    ensures When(e) == "" <==> e.when.None? || Blank(e.when.value)
  {
    if e.when.Some? { TrimBlank(e.when.value); }
  }

  lemma TakenIffWanted(e: Edge, c: Context, inJson: set<string>)
    ensures DecisionFor(e, c, inJson).Take? <==> Wanted(e, c) && Pair(e) !in inJson
  {
    hide Trim, Blank;
    WhenBlank(e);
  }

  /**
   * What an added edge becomes: its ends, its trimmed condition, "blocks" for want of a kind, its state if it is kept.
   */
  lemma AddedSays(edges: seq<Edge>, c: Context, i: nat)
    requires i < |edges| && Decisions(edges, c)[i].Take?
    ensures var e, p := edges[i], Decisions(edges, c)[i].planned;
      && p.source == e.source && p.target == e.target && e.source in c.tasks
      && p.when == (match e.when case Some(w) => Trim(w) case None => "")
      && p.kind == (match e.kind case Some(k) => k case None => "blocks")
      && p.state == (if c.keepState then e.state else None) && p.jsonState == e.state
      && p.derived == c.derive(p.kind, c.tasks[e.source])
      && p.dedup == "deps-json:" + (e.source + ">" + e.target)
  {
    hide Decisions, Trim;
    DecisionAt(edges, c, i);
    NothingTrimmed();
  }

  lemma NothingTrimmed()
    ensures Trim("") == ""
  {}

  /** A reason given is true of the edge. */
  lemma ReasonIsTrue(e: Edge, c: Context, inJson: set<string>)
    ensures match ReasonFor(e, c, inJson)
      case None => true
      case Some(NoTask(missing)) =>
        missing != [] && forall id :: id in missing <==> id in {e.source, e.target} && id !in c.tasks
      case Some(OtherProject(id)) => id in {e.source, e.target} && id in c.tasks && c.tasks[id].project != c.project
      case Some(Repeated) => e.source + ">" + e.target in inJson
      case Some(Known) => e.source + ">" + e.target in c.existing
      case Some(Removed) => "deps-json:" + (e.source + ">" + e.target) in c.usedKeys
      case Some(NoCondition) => e.when.None? || Blank(e.when.value)
      case Some(ConditionTooLong) => e.when.Some? && |Trim(e.when.value)| > 60
      case Some(UnknownKind) => e.kind.Some? && e.kind.value !in ["blocks", "branch"]
      case Some(UnknownState) => c.keepState && e.state.Some? && e.state.value !in ["waiting", "active", "done"]
  {
    hide Trim, Blank;
    WhenBlank(e);
    NothingTrimmed();
  }

  lemma {:induction false} TakenMembers(edges: seq<Edge>, c: Context, p: string)
    ensures p in TakenIn(Decisions(edges, c)) <==>
      exists j :: 0 <= j < |edges| && Pair(edges[j]) == p && Wanted(edges[j], c)
  {
    hide DecisionFor, Wanted, Pair;
    if edges != [] {
      var n := |edges| - 1;
      var init, e := edges[..n], edges[n];
      var before := Decisions(init, c);
      TakenMembers(init, c, p);
      TakenMembers(init, c, Pair(e));
      var d := DecisionFor(e, c, TakenIn(before));
      TakenSnoc(before, d);
      TakenIffWanted(e, c, TakenIn(before));
      PlannedPair(e, c, TakenIn(before));
      forall j | 0 <= j < n ensures init[j] == edges[j] {}
      if p in TakenIn(before) {
        var j :| 0 <= j < |init| && Pair(init[j]) == p && Wanted(init[j], c);
        assert Pair(edges[j]) == p && Wanted(edges[j], c);
      }
      if j :| 0 <= j < |edges| && Pair(edges[j]) == p && Wanted(edges[j], c) && j < n {
        assert Pair(init[j]) == p && Wanted(init[j], c);
      }
    }
  }

  lemma {:induction false} DecisionAt(edges: seq<Edge>, c: Context, i: nat)
    requires i < |edges|
    ensures Decisions(edges, c)[..i] == Decisions(edges[..i], c)
    ensures Decisions(edges, c)[i] == DecisionFor(edges[i], c, TakenIn(Decisions(edges[..i], c)))
  {
    hide DecisionFor;
    var n := |edges| - 1;
    if i < n {
      DecisionAt(edges[..n], c, i);
      assert edges[..n][..i] == edges[..i];
    }
  }

  /** An edge is added exactly when it is wanted and no wanted edge of the same pair stands before it. */
  lemma AddedIff(edges: seq<Edge>, c: Context, i: nat)
    requires i < |edges|
    ensures Decisions(edges, c)[i].Take? <==>
      Wanted(edges[i], c) && forall j :: 0 <= j < i && Pair(edges[j]) == Pair(edges[i]) ==> !Wanted(edges[j], c)
  {
    hide DecisionFor, Wanted, Pair, Decisions;
    DecisionAt(edges, c, i);
    TakenMembers(edges[..i], c, Pair(edges[i]));
    TakenIffWanted(edges[i], c, TakenIn(Decisions(edges[..i], c)));
    forall j | 0 <= j < i ensures edges[..i][j] == edges[j] {}
    if Pair(edges[i]) in TakenIn(Decisions(edges[..i], c)) {
      var j :| 0 <= j < |edges[..i]| && Pair(edges[..i][j]) == Pair(edges[i]) && Wanted(edges[..i][j], c);
      assert Pair(edges[j]) == Pair(edges[i]) && Wanted(edges[j], c);
    } else {
      forall j | 0 <= j < i && Pair(edges[j]) == Pair(edges[i]) ensures !Wanted(edges[j], c) {
        assert edges[..i][j] == edges[j];
      }
    }
  }

  /** Every decision goes into one of the two lists, behind the earlier ones that went there. */
  lemma {:induction false} Listed(ds: seq<Decision>, i: nat)
    requires i < |ds|
    ensures |Adds(ds)| + |Skips(ds)| == |ds|
    ensures match ds[i]
      case Take(planned) => |Adds(ds[..i])| < |Adds(ds)| && Adds(ds)[|Adds(ds[..i])|] == planned
      case Leave(skipped) => |Skips(ds[..i])| < |Skips(ds)| && Skips(ds)[|Skips(ds[..i])|] == skipped
  {
    var n := |ds| - 1;
    AllListed(ds);
    if i < n {
      Listed(ds[..n], i);
      assert ds[..n][..i] == ds[..i];
    }
  }

  /**
   * The edge's entry in the plan: among the added ones as planned from it, or among the skipped ones with its first
   * reason.
   */
  predicate EntryAt(plan: Plan, e: Edge, c: Context, inJson: set<string>, added: nat, skipped: nat) {
    match ReasonFor(e, c, inJson)
    case None => e.source in c.tasks && added < |plan.add| && plan.add[added] == PlannedFor(e, c)
    case Some(reason) => skipped < |plan.skipped| && plan.skipped[skipped] == Skipped(e.source, e.target, reason)
  }

  /**
   * Every edge has exactly one entry, in the order of the edges: the i-th stands behind the entries of the earlier
   * edges in the list it belongs to, and nothing else is in the plan.
   */
  lemma EveryEdgeOnce(edges: seq<Edge>, c: Context, i: nat)
    requires i < |edges|
    ensures |PlanOf(edges, c).add| + |PlanOf(edges, c).skipped| == |edges|
    ensures var before := PlanOf(edges[..i], c);
      EntryAt(PlanOf(edges, c), edges[i], c, TakenIn(Decisions(edges[..i], c)), |before.add|, |before.skipped|)
  {
    hide ReasonFor, PlannedFor, Decisions;
    DecisionAt(edges, c, i);
    Listed(Decisions(edges, c), i);
    EndsOfTaken(edges[i], c, TakenIn(Decisions(edges[..i], c)));
  }

  lemma EndsOfTaken(e: Edge, c: Context, inJson: set<string>)
    ensures ReasonFor(e, c, inJson).None? ==> e.source in c.tasks
  {
    if ReasonFor(e, c, inJson).None? { EndsKnown(e, c); }
  }

  lemma AllListed(ds: seq<Decision>)
    ensures |Adds(ds)| + |Skips(ds)| == |ds|
  {}

  /** No pair is added twice, and none that the ledger already has. */
  lemma NoPairTwice(edges: seq<Edge>, c: Context, i: nat, j: nat)
    requires i < j < |edges| && Decisions(edges, c)[i].Take? && Decisions(edges, c)[j].Take?
    ensures Pair(edges[i]) != Pair(edges[j]) && Pair(edges[j]) !in c.existing
  {
    hide Pair;
    AddedIff(edges, c, i);
    AddedIff(edges, c, j);
  }

  /**
   * The ledger after the import, and possibly more: same project, tasks and options, every edge that was there or was
   * added.
   */
  predicate Later(c: Context, edges: seq<Edge>, c': Context) {
    && c'.project == c.project && c'.tasks == c.tasks && c'.keepState == c.keepState
    && c.existing + TakenIn(Decisions(edges, c)) <= c'.existing && c.usedKeys <= c'.usedKeys
  }

  /** One run reaches a fixpoint: planning again over the ledger with the added edges adds nothing. */
  lemma SecondRunAddsNothing(edges: seq<Edge>, c: Context, c': Context)
    requires Later(c, edges, c')
    ensures PlanOf(edges, c').add == []
  {
    hide Decisions;
    forall i | 0 <= i < |edges| ensures Decisions(edges, c')[i].Leave? {
      AddedIff(edges, c', i);
      if Wanted(edges[i], c') {
        assert Wanted(edges[i], c);
        TakenMembers(edges, c, Pair(edges[i]));
      }
    }
    NothingTaken(Decisions(edges, c'));
  }

  lemma {:induction false} NothingTaken(ds: seq<Decision>)
    requires forall i :: 0 <= i < |ds| ==> ds[i].Leave?
    ensures Adds(ds) == []
  {
    if ds != [] {
      assert ds[|ds| - 1].Leave?;
      NothingTaken(ds[..|ds| - 1]);
    }
  }
}
