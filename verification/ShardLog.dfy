/** What the gates read out of a shard's log: header rows, and one group line for every test file that ran. */
module ShardLog {
  import opened Sequences
  import opened Text

  const GROUP_OPEN := "::group::"

  predicate LineTerminator(c: char) {
    c == '\n' || c == '\r' || c == '\U{2028}' || c == '\U{2029}'
  }

  /** A line that opens a group of this name: the name has a character, and none that ends a line. */
  predicate IsGroup(line: string, name: string) {
    && line == "::group::" + name + ":" && name != ""
    && forall c :: c in name ==> c !in {'\n', '\r', '\U{2028}', '\U{2029}'}
  }

  lemma OneLine(name: string)
    ensures (forall c :: c in name ==> !LineTerminator(c)) <==>
      forall c :: c in name ==> c !in {'\n', '\r', '\U{2028}', '\U{2029}'}
  {
    forall c: char ensures LineTerminator(c) <==> c in {'\n', '\r', '\U{2028}', '\U{2029}'} {}
  }

  /** `/^::group::(.+):$/`: the name between the marker and the final colon. */
  function GroupOf(line: string): (r: Option<string>)
    ensures r.Some? <==> exists name :: IsGroup(line, name)
    ensures r.Some? ==> IsGroup(line, r.value)
  {
    if |line| > 10 && GROUP_OPEN <= line && line[|line| - 1] == ':'
       && forall c :: c in line[9..|line| - 1] ==> !LineTerminator(c) then
      assert line == GROUP_OPEN + line[9..|line| - 1] + ":";
      var name := line[9..|line| - 1];
      assert name != "" && line == "::group::" + name + ":";
      OneLine(name);
      assert IsGroup(line, name);
      Some(name)
    else
      assert forall name :: IsGroup(line, name) ==> line[9..|line| - 1] == name;
      None
  }

  /** The files a log says ran, in order and with repetitions. */
  function Ran(lines: seq<string>): (r: seq<string>)
    ensures forall f :: f in r ==> f != "" && '\n' !in f
  {
    if lines == [] then []
    else match GroupOf(lines[0])
      case Some(f) => [f] + Ran(lines[1..])
      case None => Ran(lines[1..])
  }

  function RanInLog(log: string): (r: seq<string>)
    ensures forall f :: f in r ==> f != "" && '\n' !in f
  {
    Ran(Lines(log))
  }

  lemma RanSnoc(lines: seq<string>, line: string)
    ensures Ran(lines + [line]) == Ran(lines) + match GroupOf(line) { case Some(f) => [f] case None => [] }
  {
    if lines == [] {
      assert lines + [line] == [line];
    } else {
      assert (lines + [line])[1..] == lines[1..] + [line];
      RanSnoc(lines[1..], line);
    }
  }

  function RowOf(lines: seq<string>, i: nat): Option<string> {
    if i < |lines| then Some(lines[i]) else None
  }

  /** The 1-based rows, among the first m, that start with `marker`. */
  function RowsAmong(lines: seq<string>, marker: string, m: nat): (r: seq<nat>)
    requires m <= |lines|
    ensures forall i :: 0 <= i < |r| ==> 1 <= r[i] <= m && marker <= lines[r[i] - 1]
    ensures forall j :: 1 <= j <= m && marker <= lines[j - 1] ==> j in r
    ensures Distinct(r)
  {
    if m == 0 then []
    else RowsAmong(lines, marker, m - 1) + if marker <= lines[m - 1] then [m] else []
  }

  function RowsWith(lines: seq<string>, marker: string): seq<nat> {
    RowsAmong(lines, marker, |lines|)
  }

  /** `marker` starts row `row` (from 1) and no other row. */
  predicate OnlyAt(lines: seq<string>, marker: string, row: nat) {
    && 1 <= row <= |lines|
    && forall i :: 0 <= i < |lines| ==> (marker <= lines[i] <==> i == row - 1)
  }

  lemma OneValue(rows: seq<nat>, row: nat)
    requires Distinct(rows) && row in rows && forall i :: 0 <= i < |rows| ==> rows[i] == row
    ensures rows == [row]
  {
    if |rows| > 1 { TwoValues(rows); }
  }

  lemma TwoValues(rows: seq<nat>)
    requires Distinct(rows) && |rows| > 1
    ensures rows[0] != rows[1]
  {}

  lemma RowsListed(lines: seq<string>, marker: string)
    ensures Distinct(RowsWith(lines, marker))
    ensures forall j :: j in RowsWith(lines, marker) <==> 1 <= j <= |lines| && marker <= lines[j - 1]
  {
    var rows := RowsWith(lines, marker);
    forall j | j in rows ensures 1 <= j <= |lines| && marker <= lines[j - 1] {
      var i :| 0 <= i < |rows| && rows[i] == j;
    }
  }

  lemma RowsWithOnlyAt(lines: seq<string>, marker: string, row: nat)
    ensures RowsWith(lines, marker) == [row] <==> OnlyAt(lines, marker, row)
  {
    hide RowsWith;
    var rows := RowsWith(lines, marker);
    RowsListed(lines, marker);
    if rows == [row] {
      assert row in rows;
      forall i | 0 <= i < |lines| ensures marker <= lines[i] <==> i == row - 1 {
        assert i + 1 in rows <==> marker <= lines[i];
      }
    }
    if OnlyAt(lines, marker, row) {
      assert marker <= lines[row - 1];
      OnlyOneRow(lines, marker, rows, row);
      OneValue(rows, row);
    }
  }

  lemma OnlyOneRow(lines: seq<string>, marker: string, rows: seq<nat>, row: nat)
    requires OnlyAt(lines, marker, row) && forall j :: j in rows <==> 1 <= j <= |lines| && marker <= lines[j - 1]
    ensures row in rows && forall i :: 0 <= i < |rows| ==> rows[i] == row
  {
    forall i | 0 <= i < |rows| ensures rows[i] == row { assert rows[i] in rows; }
  }

  // ---- the files that ran against the files that were to run ----

  datatype Problem =
    | WrongRow(row: nat, expected: string, found: Option<string>)
    | MarkerRows(marker: string, at: seq<nat>)
    | Output
    | RanAgain(files: seq<string>)
    | NotRun(files: seq<string>)
    | RanOthers(files: seq<string>)

  function Missing(plan: seq<string>, ran: seq<string>): seq<string> {
    Filter(plan, f => f !in ran)
  }

  function Others(plan: seq<string>, ran: seq<string>): seq<string> {
    Filter(Dedup(ran), f => f !in plan)
  }

  function RanProblems(ran: seq<string>, plan: seq<string>): seq<Problem> {
    (if Repeats(ran) != [] then [RanAgain(Repeats(ran))] else [])
    + (if Missing(plan, ran) != [] then [NotRun(Missing(plan, ran))] else [])
    + (if Others(plan, ran) != [] then [RanOthers(Others(plan, ran))] else [])
  }

  /** What ran is exactly what was to run, nothing twice. */
  predicate RanExactly(ran: seq<string>, plan: seq<string>) {
    Distinct(ran) && (forall f :: f in ran ==> f in plan) && (forall f :: f in plan ==> f in ran)
  }

  lemma NoRanProblems(ran: seq<string>, plan: seq<string>)
    ensures RanProblems(ran, plan) == [] <==> RanExactly(ran, plan)
  {
    NoRepeats(ran);
    var missing, others := Missing(plan, ran), Others(plan, ran);
    if missing != [] { assert missing[0] in missing; }
    if others != [] { assert others[0] in others; }
    if missing == [] && others == [] {
      forall f ensures f in ran <==> f in plan {
        assert f in missing <==> f in plan && f !in ran;
        assert f in others <==> f in ran && f !in plan;
      }
    }
  }

  lemma NothingSeen()
    ensures Ran([]) == [] && Elements<string>([]) == {} && Repeats<string>([]) == []
  {}

  lemma SeenMore(ran: seq<string>, f: string)
    ensures Elements(ran + [f]) == Elements(ran) + {f}
    ensures Repeats(ran + [f]) == Repeats(ran) + if f in Elements(ran) then [f] else []
  {
    RepeatsAfterSnoc(ran, f, {});
  }

  /** A gate walks the group lines once, with the set of files seen so far. */
  method CheckRan(lines: seq<string>, plan: seq<string>) returns (problems: seq<Problem>)
    ensures problems == RanProblems(Ran(lines), plan)
  {
    hide Ran, Repeats, Elements, GroupOf, Missing, Others;
    var ran, seen, again := [], {}, [];
    NothingSeen();
    for i := 0 to |lines|
      invariant ran == Ran(lines[..i])
      invariant seen == Elements(ran)
      invariant again == Repeats(ran)
    {
      assert lines[..i + 1] == lines[..i] + [lines[i]];
      RanSnoc(lines[..i], lines[i]);
      var group := GroupOf(lines[i]);
      if group.Some? {
        SeenMore(ran, group.value);
        if group.value in seen { again := again + [group.value]; } else { seen := seen + {group.value}; }
        ran := ran + [group.value];
      }
    }
    assert lines[..|lines|] == lines && lines[..0] == [];
    problems := if again != [] then [RanAgain(again)] else [];
    var missing := Missing(plan, ran);
    if missing != [] { problems := problems + [NotRun(missing)]; }
    var others := Others(plan, ran);
    if others != [] { problems := problems + [RanOthers(others)]; }
  }
}
