/**
 * scripts/codex-probe.ts: finding the descendants of a process from snapshots of the process table, and cutting its
 * output into lines.
 */
module ProcessTree {
  import opened Sequences
  import opened Text

  datatype Row = Row(pid: int, ppid: int, pgid: int, start: string, comm: string)

  type Table = map<int, Row>

  // ---- descent ----

  /** Each row's parent is the one before it; the first one's parent is a root. */
  predicate Chain(rows: seq<Row>, roots: set<int>, path: seq<Row>) {
    && path != [] && path[0].ppid in roots
    && (forall i :: 0 <= i < |path| ==> path[i] in rows)
    && (forall i :: 0 < i < |path| ==> path[i].ppid == path[i - 1].pid)
  }

  ghost predicate Descends(rows: seq<Row>, roots: set<int>, x: Row) {
    exists path :: Chain(rows, roots, path) && path[|path| - 1] == x
  }

  /** A process that is not a root, but descends from one by parent links of this snapshot. */
  ghost predicate Reached(rows: seq<Row>, roots: set<int>, pid: int) {
    pid !in roots && exists x :: x in rows && x.pid == pid && Descends(rows, roots, x)
  }

  predicate OneRowEach(rows: seq<Row>) {
    forall i, j :: 0 <= i < j < |rows| ==> rows[i].pid != rows[j].pid
  }

  // ---- who is still there ----

  function LastRow(rows: seq<Row>, pid: int): Option<Row> {
    if rows == [] then None else if rows[|rows| - 1].pid == pid then Some(rows[|rows| - 1])
      else LastRow(rows[..|rows| - 1], pid)
  }

  /** The process tracked under this pid is still running: same start time, not a zombie. */
  predicate Alive(tracked: Table, rows: seq<Row>, pid: int) {
    pid in tracked && LastRow(rows, pid).Some? && LastRow(rows, pid).value.start == tracked[pid].start
    && LastRow(rows, pid).value.comm != "<defunct>"
  }

  /** `liveTracked`: the current rows of the tracked processes that are still running. */
  function LiveTracked(tracked: Table, rows: seq<Row>): set<Row> {
    set pid | pid in tracked && Alive(tracked, rows, pid) :: LastRow(rows, pid).value
  }

  function LivePids(tracked: Table, rows: seq<Row>): set<int> {
    set pid | pid in tracked && Alive(tracked, rows, pid)
  }

  /** Where the search starts: the live tracked processes, and the server itself as long as it has not been reaped. */
  function Roots(tracked: Table, child: Option<int>, exited: bool, rows: seq<Row>): set<int> {
    LivePids(tracked, rows) + if child.Some? && !exited then {child.value} else {}
  }

  /**
   * The search starts at the tracked processes of which the snapshot has a row with the same start that is no zombie,
   * and at the server until it is reaped.
   */
  lemma RootsSay(tracked: Table, child: Option<int>, exited: bool, rows: seq<Row>, pid: int)
    requires OneRowEach(rows)
    ensures pid in Roots(tracked, child, exited, rows) <==>
      || (pid in tracked
          && exists x :: x in rows && x.pid == pid && x.start == tracked[pid].start && x.comm != "<defunct>")
      || (child == Some(pid) && !exited)
  {
    LastRowIs(rows, pid);
    forall x | x in rows && x.pid == pid ensures LastRow(rows, pid) == Some(x) { OnlyRow(rows, x); }
  }

  /** The table has a row of this snapshot under the pid, of a process that descends from a root. */
  ghost predicate Entered(rows: seq<Row>, roots: set<int>, t: Table, pid: int) {
    pid in t && t[pid] in rows && t[pid].pid == pid && Descends(rows, roots, t[pid])
  }

  /**
   * The table after a scan: every process reached is entered with its row of this snapshot, every other entry stays.
   */
  ghost predicate Scanned(before: Table, after: Table, roots: set<int>, rows: seq<Row>) {
    && (forall pid :: pid in after <==> pid in before || Reached(rows, roots, pid))
    && (forall pid :: pid in after ==>
          if Reached(rows, roots, pid) then Entered(rows, roots, after, pid) else after[pid] == before[pid])
  }

  function Pids(rows: seq<Row>): set<int> {
    set i | 0 <= i < |rows| :: rows[i].pid
  }

  lemma {:induction false} LastRowIs(rows: seq<Row>, pid: int)
    ensures LastRow(rows, pid).None? <==> pid !in Pids(rows)
    ensures LastRow(rows, pid).Some? ==> LastRow(rows, pid).value in rows && LastRow(rows, pid).value.pid == pid
  {
    if rows != [] {
      var init, last := rows[..|rows| - 1], rows[|rows| - 1];
      LastRowIs(init, pid);
      assert rows == init + [last];
      if pid in Pids(rows) && last.pid != pid {
        var i :| 0 <= i < |rows| && rows[i].pid == pid;
        assert init[i].pid == pid;
      }
      if pid in Pids(init) {
        var i :| 0 <= i < |init| && init[i].pid == pid;
        assert rows[i].pid == pid;
      }
    }
  }

  lemma OnlyRow(rows: seq<Row>, x: Row)
    requires OneRowEach(rows) && x in rows
    ensures LastRow(rows, x.pid) == Some(x)
  {
    LastRowIs(rows, x.pid);
    var i :| 0 <= i < |rows| && rows[i] == x;
    assert x.pid in Pids(rows) by { assert rows[i].pid == x.pid; }
    var j :| 0 <= j < |rows| && rows[j] == LastRow(rows, x.pid).value;
    assert i == j;
  }

  lemma Extend(rows: seq<Row>, roots: set<int>, x: Row, y: Row)
    requires Descends(rows, roots, x) && y in rows && y.ppid == x.pid
    ensures Descends(rows, roots, y)
  {
    var path :| Chain(rows, roots, path) && path[|path| - 1] == x;
    assert Chain(rows, roots, path + [y]);
    assert (path + [y])[|path + [y]| - 1] == y;
  }

  lemma FirstStep(rows: seq<Row>, roots: set<int>, x: Row)
    requires x in rows && x.ppid in roots
    ensures Descends(rows, roots, x)
  {
    var path := [x];
    assert Chain(rows, roots, path) && path[|path| - 1] == x;
  }

  /** Nothing is left to add: every row whose parent is in is in itself. */
  predicate Closed(rows: seq<Row>, found: set<int>) {
    forall i :: 0 <= i < |rows| && rows[i].ppid in found ==> rows[i].pid in found
  }

  lemma {:induction false} ClosedHasAll(rows: seq<Row>, roots: set<int>, found: set<int>, path: seq<Row>)
    requires Closed(rows, found) && roots <= found && Chain(rows, roots, path)
    ensures path[|path| - 1].pid in found
  {
    var last := path[|path| - 1];
    var i :| 0 <= i < |rows| && rows[i] == last;
    if |path| > 1 {
      assert Chain(rows, roots, path[..|path| - 1]);
      ClosedHasAll(rows, roots, found, path[..|path| - 1]);
    }
    assert rows[i].pid in found;
  }

  /** What the search has entered so far, and from where. */
  ghost predicate Grown(rows: seq<Row>, roots: set<int>, found: set<int>, before: Table, after: Table) {
    && roots <= found <= roots + Pids(rows)
    && (forall pid :: pid in found - roots ==> Reached(rows, roots, pid) && Entered(rows, roots, after, pid))
    && (forall pid :: pid in after <==> pid in before || pid in found - roots)
    && (forall pid :: pid in after && pid !in found - roots ==> after[pid] == before[pid])
  }

  /** How many pids could still be entered. */
  ghost function Missing(rows: seq<Row>, roots: set<int>, found: set<int>): nat {
    |roots + Pids(rows) - found|
  }

  lemma GrowByOne(rows: seq<Row>, roots: set<int>, found: set<int>, before: Table, after: Table, x: Row)
    requires Grown(rows, roots, found, before, after) && x in rows && x.pid !in found && x.ppid in found
    ensures Grown(rows, roots, found + {x.pid}, before, after[x.pid := x])
    ensures Missing(rows, roots, found + {x.pid}) < Missing(rows, roots, found)
  {
    hide Chain, Reached;
    if x.ppid in roots { FirstStep(rows, roots, x); } else { Extend(rows, roots, after[x.ppid], x); }
    var i :| 0 <= i < |rows| && rows[i] == x;
    assert x.pid in Pids(rows) by { assert rows[i].pid == x.pid; }
    ReachedBy(rows, roots, x);
    var left := roots + Pids(rows) - found;
    assert left - {x.pid} == roots + Pids(rows) - (found + {x.pid});
    assert x.pid in left;
  }

  lemma ReachedBy(rows: seq<Row>, roots: set<int>, x: Row)
    requires x in rows && x.pid !in roots && Descends(rows, roots, x)
    ensures Reached(rows, roots, x.pid)
  {}

  lemma GrownIsScanned(rows: seq<Row>, roots: set<int>, found: set<int>, before: Table, after: Table)
    requires Grown(rows, roots, found, before, after) && Closed(rows, found)
    ensures Scanned(before, after, roots, rows)
  {
    forall pid | Reached(rows, roots, pid) ensures pid in found - roots {
      var x :| x in rows && x.pid == pid && Descends(rows, roots, x);
      var path :| Chain(rows, roots, path) && path[|path| - 1] == x;
      ClosedHasAll(rows, roots, found, path);
    }
  }

  class Probe {
    var tracked: Table
    var child: Option<int>
    var exited: bool

    constructor ()
      ensures tracked == map[] && child == None && !exited
    {
      tracked, child, exited := map[], None, false;
    }

    /** One pass over the snapshot. */
    method Pass(rows: seq<Row>, ghost roots: set<int>, ghost before: Table, start: set<int>)
      returns (found: set<int>, grew: bool)
      requires Grown(rows, roots, start, before, tracked)
      modifies this`tracked
      ensures Grown(rows, roots, found, before, tracked)
      ensures if grew then Missing(rows, roots, found) < Missing(rows, roots, start)
        else found == start && Closed(rows, found)
    {
      hide Grown, Missing;
      found, grew := start, false;
      for i := 0 to |rows|
        invariant Grown(rows, roots, found, before, tracked)
        invariant if grew then Missing(rows, roots, found) < Missing(rows, roots, start)
          else found == start && ClosedUpTo(rows, found, i)
      {
        var x := rows[i];
        if x.pid !in found && x.ppid in found {
          GrowByOne(rows, roots, found, before, tracked, x);
          found := found + {x.pid};
          tracked := tracked[x.pid := x];
          grew := true;
        }
      }
    }

    /** `scan`: the table of descendants grows until a pass over the snapshot finds nothing more. */
    method Scan(rows: seq<Row>)
      modifies this`tracked
      ensures child.None? ==> tracked == old(tracked)
      ensures child.Some? ==> Scanned(old(tracked), tracked, Roots(old(tracked), child, exited, rows), rows)
    {
      if child.None? { return; }
      hide Grown, Closed, LivePids, Missing, Scanned;
      var found := Roots(tracked, child, exited, rows);
      ghost var roots := found;
      var grew := true;
      while grew
        invariant Grown(rows, roots, found, old(tracked), tracked)
        invariant !grew ==> Closed(rows, found)
        decreases Missing(rows, roots, found), grew
      {
        found, grew := Pass(rows, roots, old(tracked), found);
      }
      GrownIsScanned(rows, roots, found, old(tracked), tracked);
    }

    /** `sweep`: enter the new descendants, then report the tracked processes that are running. */
    method Sweep(rows: seq<Row>) returns (live: set<Row>)
      modifies this`tracked
      ensures child.Some? ==> Scanned(old(tracked), tracked, Roots(old(tracked), child, exited, rows), rows)
      ensures live == LiveTracked(tracked, rows)
    {
      Scan(rows);
      live := LiveTracked(tracked, rows);
    }
  }

  predicate ClosedUpTo(rows: seq<Row>, found: set<int>, n: nat)
    requires n <= |rows|
  {
    forall i :: 0 <= i < n && rows[i].ppid in found ==> rows[i].pid in found
  }

  // ---- what a scan means ----

  /** A snapshot in another order leads to the same table. */
  lemma OrderIsIrrelevant(before: Table, a: Table, b: Table, roots: set<int>, rows: seq<Row>, other: seq<Row>)
    requires OneRowEach(rows) && multiset(rows) == multiset(other)
    requires Scanned(before, a, roots, rows) && Scanned(before, b, roots, other)
    ensures a == b
  {
    hide Chain, Reached, Descends;
    SameMembers(rows, other);
    forall path: seq<Row> | Chain(rows, roots, path) || Chain(other, roots, path)
      ensures Chain(rows, roots, path) && Chain(other, roots, path) {
      SameChains(rows, other, roots, path);
    }
    forall pid ensures Reached(rows, roots, pid) <==> Reached(other, roots, pid) {
      SameReached(rows, other, roots, pid);
    }
    forall pid ensures pid in a <==> pid in b {
      assert Reached(rows, roots, pid) <==> Reached(other, roots, pid);
    }
    assert a.Keys == b.Keys;
    forall pid | pid in a ensures a[pid] == b[pid] {
      if Reached(rows, roots, pid) {
        OnlyRow(rows, a[pid]);
        OnlyRow(rows, b[pid]);
      }
    }
  }

  lemma SameChains(rows: seq<Row>, other: seq<Row>, roots: set<int>, path: seq<Row>)
    requires forall x :: x in rows <==> x in other
    ensures Chain(rows, roots, path) <==> Chain(other, roots, path)
  {}

  lemma SameReached(rows: seq<Row>, other: seq<Row>, roots: set<int>, pid: int)
    requires forall x :: x in rows <==> x in other
    requires forall path :: Chain(rows, roots, path) <==> Chain(other, roots, path)
    ensures Reached(rows, roots, pid) <==> Reached(other, roots, pid)
  {
    hide Chain;
  }

  /**
   * After a sweep the report is exact: the running processes that were tracked before or descend from a root in this
   * snapshot.
   */
  lemma SweepIsExact(before: Table, after: Table, roots: set<int>, rows: seq<Row>, x: Row)
    requires OneRowEach(rows) && Scanned(before, after, roots, rows) && x in rows && LivePids(before, rows) <= roots
    ensures x in LiveTracked(after, rows) <==>
      x.comm != "<defunct>" && (Alive(before, rows, x.pid) || Reached(rows, roots, x.pid))
  {
    hide Chain, Reached;
    OnlyRow(rows, x);
    if Reached(rows, roots, x.pid) {
      OnlyRow(rows, after[x.pid]);
      assert Alive(after, rows, x.pid) <==> x.comm != "<defunct>";
    } else {
      assert Alive(after, rows, x.pid) <==> Alive(before, rows, x.pid);
    }
    if x in LiveTracked(after, rows) {
      var pid :| pid in after && Alive(after, rows, pid) && LastRow(rows, pid).value == x;
      LastRowIs(rows, pid);
    }
  }

  // ---- over many scans ----

  datatype Snapshot = Snapshot(rows: seq<Row>, child: Option<int>, exited: bool)

  datatype Process = Process(pid: int, start: string)

  /** The tables that a series of scans goes through. */
  ghost predicate History(snaps: seq<Snapshot>, tables: seq<Table>) {
    && |tables| == |snaps| + 1 && tables[0] == map[]
    && forall i :: 0 <= i < |snaps| ==>
         var s := snaps[i];
         if s.child.None? then tables[i + 1] == tables[i]
         else Scanned(tables[i], tables[i + 1], Roots(tables[i], s.child, s.exited, s.rows), s.rows)
  }

  /**
   * What the series has shown to belong to the server: its descendants while it ran, and the descendants of what was
   * already shown to.
   */
  ghost function Kin(snaps: seq<Snapshot>): iset<Process> {
    if snaps == [] then iset{}
    else
      var before, s := Kin(snaps[..|snaps| - 1]), snaps[|snaps| - 1];
      if s.child.None? then before
      else before + iset x: Row | x in s.rows && Descends(s.rows, KinRoots(before, s), x) :: Process(x.pid, x.start)
  }

  /** The server, while it is not reaped, and the rows of this snapshot that show a process already known. */
  ghost function KinRoots(known: iset<Process>, s: Snapshot): set<int> {
    (set i | 0 <= i < |s.rows| && Process(s.rows[i].pid, s.rows[i].start) in known && s.rows[i].comm != "<defunct>" ::
      s.rows[i].pid)
    + if s.child.Some? && !s.exited then {s.child.value} else {}
  }

  /**
   * No stranger is ever reported, however pids are reused between scans: what is tracked has been shown to belong to
   * the server.
   */
  lemma {:induction false} OnlyKinIsTracked(snaps: seq<Snapshot>, tables: seq<Table>, pid: int)
    requires History(snaps, tables) && pid in tables[|snaps|]
    ensures tables[|snaps|][pid].pid == pid && Process(pid, tables[|snaps|][pid].start) in Kin(snaps)
  {
    hide Descends, Reached, Roots, KinRoots;
    var n := |snaps|;
    if n > 0 {
      var s, before := snaps[n - 1], tables[n - 1];
      assert History(snaps[..n - 1], tables[..n]);
      if s.child.None? {
        OnlyKinIsTracked(snaps[..n - 1], tables[..n], pid);
      } else {
        var roots := Roots(before, s.child, s.exited, s.rows);
        if Reached(s.rows, roots, pid) {
          forall p | p in before ensures before[p].pid == p && Process(p, before[p].start) in Kin(snaps[..n - 1]) {
            OnlyKinIsTracked(snaps[..n - 1], tables[..n], p);
          }
          RootsAreKin(before, s, Kin(snaps[..n - 1]));
          MoreRoots(s.rows, roots, KinRoots(Kin(snaps[..n - 1]), s), tables[n][pid]);
        } else {
          OnlyKinIsTracked(snaps[..n - 1], tables[..n], pid);
        }
      }
    }
  }

  lemma RootsAreKin(before: Table, s: Snapshot, known: iset<Process>)
    requires forall p :: p in before ==> before[p].pid == p && Process(p, before[p].start) in known
    ensures Roots(before, s.child, s.exited, s.rows) <= KinRoots(known, s)
  {
    forall p | p in LivePids(before, s.rows) ensures p in KinRoots(known, s) {
      LastRowIs(s.rows, p);
      var i :| 0 <= i < |s.rows| && s.rows[i] == LastRow(s.rows, p).value;
      assert Process(s.rows[i].pid, s.rows[i].start) in known;
    }
  }

  lemma MoreRoots(rows: seq<Row>, roots: set<int>, more: set<int>, x: Row)
    requires Descends(rows, roots, x) && roots <= more
    ensures Descends(rows, more, x)
  {
    var path :| Chain(rows, roots, path) && path[|path| - 1] == x;
    assert Chain(rows, more, path);
  }

  // ---- cutting output into lines (`pump`) ----

  function Telling(): string -> bool {
    (l: string) => !Blank(l)
  }

  /** What has been handed on, and the unfinished line, together make up all that has arrived. */
  ghost predicate Framed(lines: seq<string>, buf: string, arrived: string) {
    forall more :: Filter(Lines(arrived + more), Telling()) == lines + Filter(Lines(buf + more), Telling())
  }

  lemma FramedStep(lines: seq<string>, buf: string, i: nat, arrived: string)
    requires Framed(lines, buf, arrived) && i < |buf| && buf[i] == '\n' && '\n' !in buf[..i]
    ensures Framed(lines + if Blank(buf[..i]) then [] else [buf[..i]], buf[i + 1..], arrived)
  {
    hide Lines, Blank;
    var line, rest := buf[..i], buf[i + 1..];
    forall more ensures Filter(Lines(arrived + more), Telling()) ==
      lines + (if Blank(line) then [] else [line]) + Filter(Lines(rest + more), Telling()) {
      assert buf + more == line + "\n" + (rest + more);
      LinesOfHead(line, rest + more);
      FilterAppend([line], Lines(rest + more), Telling());
    }
  }

  lemma FramedMore(lines: seq<string>, buf: string, arrived: string, chunk: string)
    requires Framed(lines, buf, arrived)
    ensures Framed(lines, buf + chunk, arrived + chunk)
  {
    hide Lines;
    forall more ensures Filter(Lines(arrived + chunk + more), Telling()) ==
      lines + Filter(Lines(buf + chunk + more), Telling()) {
      assert arrived + chunk + more == arrived + (chunk + more) && buf + chunk + more == buf + (chunk + more);
    }
  }

  /**
   * However the output is cut into chunks, exactly the lines of the whole that are not blank are handed on, in order.
   */
  method Pump(chunks: seq<string>) returns (lines: seq<string>)
    ensures lines == Filter(Lines(Concat(chunks)), Telling())
  {
    hide Lines, Framed, Blank;
    var buf := "";
    lines := [];
    NothingFramed();
    for k := 0 to |chunks|
      invariant Framed(lines, buf, Concat(chunks[..k])) && '\n' !in buf
    {
      assert chunks[..k + 1][..k] == chunks[..k];
      FramedMore(lines, buf, Concat(chunks[..k]), chunks[k]);
      buf := buf + chunks[k];
      var i := IndexOf(buf, '\n');
      while i < |buf|
        invariant Framed(lines, buf, Concat(chunks[..k + 1])) && i == IndexOf(buf, '\n')
        decreases |buf|
      {
        FramedStep(lines, buf, i, Concat(chunks[..k + 1]));
        if !Blank(buf[..i]) { lines := lines + [buf[..i]]; } else { assert lines + [] == lines; }
        buf := buf[i + 1..];
        i := IndexOf(buf, '\n');
      }
      assert buf[..|buf|] == buf;
    }
    assert chunks[..|chunks|] == chunks;
    RestOf(lines, buf, Concat(chunks));
    if !Blank(buf) { lines := lines + [buf]; }
  }

  lemma NothingFramed()
    ensures Framed([], "", "")
  {
    hide Lines, Filter;
    forall more ensures Filter(Lines("" + more), Telling()) == [] + Filter(Lines("" + more), Telling()) {
      assert [] + Filter(Lines("" + more), Telling()) == Filter(Lines("" + more), Telling());
    }
  }

  lemma RestOf(lines: seq<string>, buf: string, arrived: string)
    requires Framed(lines, buf, arrived)
    ensures '\n' !in buf ==> Filter(Lines(arrived), Telling()) == lines + if Blank(buf) then [] else [buf]
  {
    hide Lines, Blank;
    assert arrived + "" == arrived && buf + "" == buf;
    assert Filter(Lines(arrived + ""), Telling()) == lines + Filter(Lines(buf + ""), Telling());
    if '\n' !in buf {
      LinesOfOne(buf);
    }
  }
}
