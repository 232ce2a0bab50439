/** scripts/ci-io-map.ts: merging the read traces of the shards into one canonical map. */
module IoMap {
  import opened Sequences
  import opened Text
  import opened OrderedMap

  const RECORDER_PRELOAD := "src/lib/sync-fs-trace.ts"
  const MODULE_SUFFIXES: seq<string> :=
    [".js", ".ts", ".jsx", ".tsx", ".cjs", ".cts", ".cjsx", ".ctsx", ".mjs", ".mts", ".mjsx", ".mtsx"]

  /**
   * One line as read back: `kind` is what `String` makes of the field, whatever its type; a module or path that is not
   * a string reads as the empty one.
   */
  datatype Record = Record(name: string, kind: string, path: string)

  /** The lists of one module while they are collected, in order of arrival. */
  datatype Sets = Sets(read: seq<string>, walked: seq<string>, spawned: seq<string>)

  datatype MapEntry = MapEntry(name: string, read: seq<string>, walked: seq<string>, spawned: seq<string>)
  datatype Untracked = Untracked(name: string, spawnedBy: seq<string>)

  predicate Valid(r: Record) {
    r.name != "" && r.path != "" && r.kind in ["read", "walk", "spawn"]
  }

  // ---- what the map means ----

  /** The line states this record: it names a module and a path, and its kind is one of the three. */
  predicate Tells(line: string, parse: string -> Option<Record>, r: Record) {
    !Blank(line) && parse(line) == Some(r) && r.name != "" && r.path != "" && r.kind in {"read", "walk", "spawn"}
  }

  /** The records of the lines that state one, in order. */
  function RecordsOf(lines: seq<string>, parse: string -> Option<Record>): seq<Record> {
    if lines == [] then []
    else
      var line := lines[|lines| - 1];
      RecordsOf(lines[..|lines| - 1], parse)
      + if parse(line).Some? && Tells(line, parse, parse(line).value) then [parse(line).value] else []
  }

  lemma {:induction false} RecordsExact(lines: seq<string>, parse: string -> Option<Record>, r: Record)
    ensures r in RecordsOf(lines, parse) <==> exists i :: 0 <= i < |lines| && Tells(lines[i], parse, r)
  {
    hide Tells;
    if lines != [] {
      var init, last := lines[..|lines| - 1], |lines| - 1;
      RecordsExact(init, parse, r);
      forall i | 0 <= i < last ensures init[i] == lines[i] {}
      OneRecord(lines[last], parse, r);
    }
  }

  lemma OneRecord(line: string, parse: string -> Option<Record>, r: Record)
    ensures Tells(line, parse, r) ==> parse(line) == Some(r)
  {}

  /** All the lines of all the texts. */
  function AllLines(texts: seq<string>): seq<string> {
    if texts == [] then [] else AllLines(texts[..|texts| - 1]) + Lines(texts[|texts| - 1])
  }

  function Modules(recs: seq<Record>): seq<string> {
    if recs == [] then [] else Modules(recs[..|recs| - 1]) + [recs[|recs| - 1].name]
  }

  /** The paths stated for a module and a kind. */
  function Paths(recs: seq<Record>, name: string, kind: string): seq<string> {
    if recs == [] then []
    else
      var r := recs[|recs| - 1];
      Paths(recs[..|recs| - 1], name, kind) + if r.name == name && r.kind == kind then [r.path] else []
  }

  function EntryOf(recs: seq<Record>, name: string): MapEntry {
    MapEntry(name, SortedSet(Paths(recs, name, "read")), SortedSet(Paths(recs, name, "walk")),
      SortedSet(Paths(recs, name, "spawn")))
  }

  function Entries(recs: seq<Record>): (r: seq<MapEntry>)
    ensures |r| == |SortedSet(Modules(recs))| && forall i :: 0 <= i < |r| ==>
      r[i] == EntryOf(recs, SortedSet(Modules(recs))[i])
  {
    var mods := SortedSet(Modules(recs));
    seq(|mods|, i requires 0 <= i < |mods| => EntryOf(recs, mods[i]))
  }

  predicate IsModuleFile(p: string) {
    exists i :: 0 <= i < |MODULE_SUFFIXES| && |p| >= |MODULE_SUFFIXES[i]|
      && p[|p| - |MODULE_SUFFIXES[i]|..] == MODULE_SUFFIXES[i]
  }

  /**
   * A repository module, as its name says, read backwards: an optional x, an s, a j or t, an optional c or m, a dot.
   */
  predicate HasModuleExtension(p: string) {
    var a := if p != "" && p[|p| - 1] == 'x' then p[..|p| - 1] else p;
    && |a| >= 3 && a[|a| - 1] == 's' && a[|a| - 2] in {'j', 't'}
    && (a[|a| - 3] == '.' || (|a| >= 4 && a[|a| - 3] in {'c', 'm'} && a[|a| - 4] == '.'))
  }

  predicate EndsWith(p: string, suffix: string) {
    |p| >= |suffix| && p[|p| - |suffix|..] == suffix
  }

  lemma EndsInThree(p: string, a: char, b: char, c: char)
    ensures EndsWith(p, [a, b, c]) <==> |p| >= 3 && p[|p| - 3] == a && p[|p| - 2] == b && p[|p| - 1] == c
  {
    if |p| >= 3 {
      var t := p[|p| - 3..];
      assert t == [t[0], t[1], t[2]];
    }
  }

  lemma EndsInFour(p: string, a: char, b: char, c: char, d: char)
    ensures EndsWith(p, [a, b, c, d]) <==> |p| >= 4 && p[|p| - 4] == a && EndsWith(p, [b, c, d])
  {
    EndsInThree(p, b, c, d);
    if |p| >= 4 {
      var t := p[|p| - 4..];
      assert t == [t[0], t[1], t[2], t[3]];
    }
  }

  lemma EndsInFive(p: string, a: char, b: char, c: char, d: char, e: char)
    ensures EndsWith(p, [a, b, c, d, e]) <==> |p| >= 5 && p[|p| - 5] == a && EndsWith(p, [b, c, d, e])
  {
    EndsInFour(p, b, c, d, e);
    EndsInThree(p, c, d, e);
    if |p| >= 5 {
      var t := p[|p| - 5..];
      assert t == [t[0], t[1], t[2], t[3], t[4]];
    }
  }

  lemma PlainEnding(p: string, t: char)
    ensures
      (EndsWith(p, ['.', t, 's']) || EndsWith(p, ['.', 'c', t, 's']) || EndsWith(p, ['.', 'm', t, 's'])) <==>
        (|p| >= 3 && p[|p| - 1] == 's' && p[|p| - 2] == t
         && (p[|p| - 3] == '.' || (|p| >= 4 && p[|p| - 3] in {'c', 'm'} && p[|p| - 4] == '.')))
  {
    hide EndsWith;
    EndsInThree(p, '.', t, 's');
    EndsInThree(p, 'c', t, 's');
    EndsInThree(p, 'm', t, 's');
    EndsInFour(p, '.', 'c', t, 's');
    EndsInFour(p, '.', 'm', t, 's');
  }

  lemma EndingWithX(p: string, t: char)
    ensures
      (EndsWith(p, ['.', t, 's', 'x']) || EndsWith(p, ['.', 'c', t, 's', 'x'])
       || EndsWith(p, ['.', 'm', t, 's', 'x'])) <==>
        (|p| >= 4 && p[|p| - 1] == 'x' && p[|p| - 2] == 's' && p[|p| - 3] == t
         && (p[|p| - 4] == '.' || (|p| >= 5 && p[|p| - 4] in {'c', 'm'} && p[|p| - 5] == '.')))
  {
    hide EndsWith;
    EndsInThree(p, t, 's', 'x');
    EndsInFour(p, '.', t, 's', 'x');
    EndsInFour(p, 'c', t, 's', 'x');
    EndsInFour(p, 'm', t, 's', 'x');
    EndsInFive(p, '.', 'c', t, 's', 'x');
    EndsInFive(p, '.', 'm', t, 's', 'x');
  }

  lemma ModuleSuffixes(p: string)
    ensures IsModuleFile(p) <==>
      || EndsWith(p, ".js") || EndsWith(p, ".cjs") || EndsWith(p, ".mjs")
      || EndsWith(p, ".ts") || EndsWith(p, ".cts") || EndsWith(p, ".mts")
      || EndsWith(p, ".jsx") || EndsWith(p, ".cjsx") || EndsWith(p, ".mjsx")
      || EndsWith(p, ".tsx") || EndsWith(p, ".ctsx") || EndsWith(p, ".mtsx")
  {
    forall i | 0 <= i < |MODULE_SUFFIXES|
      ensures EndsWith(p, MODULE_SUFFIXES[i]) <==>
        |p| >= |MODULE_SUFFIXES[i]| && p[|p| - |MODULE_SUFFIXES[i]|..] == MODULE_SUFFIXES[i] {}
    hide EndsWith;
    var m := MODULE_SUFFIXES;
    assert m[0] == ".js" && m[4] == ".cjs" && m[8] == ".mjs" && m[1] == ".ts" && m[5] == ".cts" && m[9] == ".mts";
    assert m[2] == ".jsx" && m[6] == ".cjsx" && m[10] == ".mjsx" && m[3] == ".tsx" && m[7] == ".ctsx"
      && m[11] == ".mtsx";
  }

  /** The module files are those with such an extension. */
  lemma IsModuleIff(p: string)
    ensures IsModuleFile(p) <==> HasModuleExtension(p)
  {
    ModuleSuffixes(p);
    PlainEnding(p, 'j');
    PlainEnding(p, 't');
    EndingWithX(p, 'j');
    EndingWithX(p, 't');
    hide EndsWith, IsModuleFile;
  }

  function HasEntry(entries: seq<MapEntry>): set<string> {
    (set i | 0 <= i < |entries| :: entries[i].name) + {RECORDER_PRELOAD}
  }

  // ---- grouping: a map of sets keyed in order of arrival ----

  function Grouped<V(!new)>(keys: seq<string>, of: string -> V): (r: Dict<V>)
    ensures |r| == |Dedup(keys)| && forall i :: 0 <= i < |r| ==> r[i] == Entry(Dedup(keys)[i], of(Dedup(keys)[i]))
  {
    seq(|Dedup(keys)|, i requires 0 <= i < |Dedup(keys)| => Entry(Dedup(keys)[i], of(Dedup(keys)[i])))
  }

  lemma GroupedGet<V(!new)>(keys: seq<string>, of: string -> V, key: string)
    ensures Unique(Grouped(keys, of))
    ensures Get(Grouped(keys, of), key) == if key in keys then Some(of(key)) else None
  {
    hide Get;
    var m := Grouped(keys, of);
    GetAt(m, key);
    if key in keys {
      var i :| 0 <= i < |Dedup(keys)| && Dedup(keys)[i] == key;
      GetIs(m, i);
    } else {
      forall i | 0 <= i < |m| ensures m[i].key != key { assert m[i].key in Dedup(keys); }
    }
  }

  /** Setting one key to its new value is grouping with one more arrival of that key. */
  lemma GroupedPut<V(!new)>(keys: seq<string>, key: string, before: string -> V, after: string -> V)
    requires forall k :: k != key ==> after(k) == before(k)
    ensures Put(Grouped(keys, before), key, after(key)) == Grouped(keys + [key], after)
  {
    hide Put, Get;
    var m := Grouped(keys, before);
    GroupedGet(keys, before, key);
    assert (keys + [key])[..|keys|] == keys;
    if key in keys {
      var i :| 0 <= i < |Dedup(keys)| && Dedup(keys)[i] == key;
      PutAt(m, i, key, after(key));
      assert Dedup(keys + [key]) == Dedup(keys);
      forall j | 0 <= j < |m| && j != i ensures Dedup(keys)[j] != key {}
    } else {
      forall i | 0 <= i < |m| ensures m[i].key != key { assert m[i].key in Dedup(keys); }
      PutNew(m, key, after(key));
      assert Dedup(keys + [key]) == Dedup(keys) + [key];
    }
  }

  // ---- building the map ----

  function SetsIn(recs: seq<Record>): string -> Sets {
    (name: string) => Sets(Dedup(Paths(recs, name, "read")), Dedup(Paths(recs, name, "walk")),
      Dedup(Paths(recs, name, "spawn")))
  }

  /** `Set.add`. */
  function Add(xs: seq<string>, x: string): seq<string> {
    if x in xs then xs else xs + [x]
  }

  function AddTo(sets: Sets, kind: string, path: string): Sets {
    if kind == "read" then sets.(read := Add(sets.read, path))
    else if kind == "walk" then sets.(walked := Add(sets.walked, path))
    else sets.(spawned := Add(sets.spawned, path))
  }

  lemma DedupSnoc(xs: seq<string>, x: string)
    ensures Dedup(xs + [x]) == Add(Dedup(xs), x)
  {
    assert (xs + [x])[..|xs|] == xs;
  }

  lemma PathsSnoc(recs: seq<Record>, r: Record, name: string, kind: string)
    ensures Paths(recs + [r], name, kind) == Paths(recs, name, kind)
      + if r.name == name && r.kind == kind then [r.path] else []
  {
    assert (recs + [r])[..|recs|] == recs;
  }

  lemma NoPaths(recs: seq<Record>, name: string, kind: string)
    requires name !in Modules(recs)
    ensures Paths(recs, name, kind) == []
  {}

  lemma SetsSnoc(recs: seq<Record>, r: Record, name: string)
    requires Valid(r)
    ensures SetsIn(recs + [r])(name) ==
      if name == r.name then AddTo(SetsIn(recs)(name), r.kind, r.path) else SetsIn(recs)(name)
  {
    hide Dedup, Paths;
    PathsSnoc(recs, r, name, "read");
    PathsSnoc(recs, r, name, "walk");
    PathsSnoc(recs, r, name, "spawn");
    DedupSnoc(Paths(recs, name, r.kind), r.path);
    assert Paths(recs, name, "read") + [] == Paths(recs, name, "read")
      && Paths(recs, name, "walk") + [] == Paths(recs, name, "walk")
      && Paths(recs, name, "spawn") + [] == Paths(recs, name, "spawn");
  }

  /** One record into the map of sets. */
  method Enter(m: Dict<Sets>, r: Record, ghost recs: seq<Record>) returns (m': Dict<Sets>)
    requires Valid(r) && m == Grouped(Modules(recs), SetsIn(recs))
    ensures m' == Grouped(Modules(recs + [r]), SetsIn(recs + [r]))
  {
    hide Get, Put, Paths, Dedup, SetsIn;
    GroupedGet(Modules(recs), SetsIn(recs), r.name);
    EmptySets(recs, r.name);
    var sets := Get(m, r.name).GetOr(Sets([], [], []));
    forall k ensures SetsIn(recs + [r])(k) ==
      if k == r.name then AddTo(SetsIn(recs)(k), r.kind, r.path) else SetsIn(recs)(k) {
      SetsSnoc(recs, r, k);
    }
    assert (recs + [r])[..|recs|] == recs;
    GroupedPut(Modules(recs), r.name, SetsIn(recs), SetsIn(recs + [r]));
    m' := Put(m, r.name, AddTo(sets, r.kind, r.path));
  }

  lemma EmptySets(recs: seq<Record>, name: string)
    ensures name !in Modules(recs) ==> SetsIn(recs)(name) == Sets([], [], [])
  {
    if name !in Modules(recs) {
      NoPaths(recs, name, "read");
      NoPaths(recs, name, "walk");
      NoPaths(recs, name, "spawn");
    }
  }

  function Count(lines: seq<string>): nat {
    if lines == [] then 0 else Count(lines[..|lines| - 1]) + if Blank(lines[|lines| - 1]) then 0 else 1
  }

  /** The state of the loop after these lines: blank ones do not count, unusable ones are counted. */
  ghost predicate Collected(all: seq<string>, parse: string -> Option<Record>, m: Dict<Sets>, bad: nat, lines: nat) {
    var recs := RecordsOf(all, parse);
    m == Grouped(Modules(recs), SetsIn(recs)) && lines == Count(all) && bad + |recs| == lines
  }

  method CollectLine(line: string, parse: string -> Option<Record>, m: Dict<Sets>, bad: nat, lines: nat,
      ghost before: seq<string>)
    returns (m': Dict<Sets>, bad': nat, lines': nat)
    requires Collected(before, parse, m, bad, lines)
    ensures Collected(before + [line], parse, m', bad', lines')
  {
    hide Blank, Grouped, SetsIn, Modules;
    m', bad', lines' := m, bad, lines;
    assert (before + [line])[..|before|] == before;
    assert RecordsOf(before, parse) + [] == RecordsOf(before, parse);
    if !Blank(line) {
      lines' := lines + 1;
      var r := parse(line);
      if r.Some? && Valid(r.value) { m' := Enter(m, r.value, RecordsOf(before, parse)); } else { bad' := bad + 1; }
    }
  }

  /** The loops over texts and lines. */
  method Collect(texts: seq<string>, parse: string -> Option<Record>) returns (m: Dict<Sets>, bad: nat, lines: nat)
    ensures Collected(AllLines(texts), parse, m, bad, lines)
  {
    hide Lines, Collected;
    m, bad, lines := [], 0, 0;
    assert Collected([], parse, m, bad, lines) by { NothingCollected(parse); }
    for t := 0 to |texts|
      invariant Collected(AllLines(texts[..t]), parse, m, bad, lines)
    {
      ghost var before := AllLines(texts[..t]);
      assert texts[..t + 1][..t] == texts[..t];
      var these := Lines(texts[t]);
      assert before + these[..0] == before;
      for i := 0 to |these|
        invariant Collected(before + these[..i], parse, m, bad, lines)
      {
        m, bad, lines := CollectLine(these[i], parse, m, bad, lines, before + these[..i]);
        assert before + these[..i] + [these[i]] == before + these[..i + 1];
      }
      assert these[..|these|] == these;
    }
    assert texts[..|texts|] == texts;
  }

  lemma NothingCollected(parse: string -> Option<Record>)
    ensures Collected([], parse, [], 0, 0)
  {}

  /** `buildIoMap`: the sorted entries, and how many lines there were and could not be used. */
  method BuildIoMap(texts: seq<string>, parse: string -> Option<Record>)
    returns (entries: seq<MapEntry>, bad: nat, lines: nat)
    ensures var recs := RecordsOf(AllLines(texts), parse);
      entries == Entries(recs) && lines == Count(AllLines(texts)) && bad + |recs| == lines
  {
    hide Sort, AllLines, RecordsOf, SetsIn;
    ghost var recs := RecordsOf(AllLines(texts), parse);
    var m;
    m, bad, lines := Collect(texts, parse);
    var mods := Sorted(KeysOf(m));
    KeysOfGrouped(Modules(recs), SetsIn(recs));
    SortedSetMembers(Modules(recs));
    entries := [];
    for i := 0 to |mods|
      invariant entries == Entries(recs)[..i]
    {
      GroupedGet(Modules(recs), SetsIn(recs), mods[i]);
      var sets := Get(m, mods[i]).GetOr(Sets([], [], []));
      SetsAre(recs, mods[i]);
      entries := entries + [MapEntry(mods[i], Sorted(sets.read), Sorted(sets.walked), Sorted(sets.spawned))];
    }
  }

  lemma SetsAre(recs: seq<Record>, name: string)
    ensures var sets := SetsIn(recs)(name);
      EntryOf(recs, name) == MapEntry(name, Sorted(sets.read), Sorted(sets.walked), Sorted(sets.spawned))
  {}

  function KeysOf<V(!new)>(m: Dict<V>): (r: seq<string>)
    ensures |r| == |m| && forall i :: 0 <= i < |m| ==> r[i] == m[i].key
  {
    seq(|m|, i requires 0 <= i < |m| => m[i].key)
  }

  lemma KeysOfGrouped<V(!new)>(keys: seq<string>, of: string -> V)
    ensures KeysOf(Grouped(keys, of)) == Dedup(keys)
  {}

  // ---- the map is canonical ----

  lemma {:induction false} InModules(recs: seq<Record>, name: string)
    ensures name in Modules(recs) <==> exists r :: r in recs && r.name == name
  {
    if recs != [] {
      var init, last := recs[..|recs| - 1], recs[|recs| - 1];
      InModules(init, name);
      assert recs == init + [last];
    }
  }

  lemma {:induction false} InPaths(recs: seq<Record>, name: string, kind: string, path: string)
    ensures path in Paths(recs, name, kind) <==> Record(name, kind, path) in recs
  {
    if recs != [] {
      var init, last := recs[..|recs| - 1], recs[|recs| - 1];
      InPaths(init, name, kind, path);
      assert recs == init + [last];
    }
  }

  /**
   * The entries depend on the set of valid records alone: order, repetition and the way they are spread over texts do
   * not matter.
   */
  lemma EntriesCanonical(a: seq<Record>, b: seq<Record>)
    requires forall r :: r in a <==> r in b
    ensures Entries(a) == Entries(b)
  {
    hide Sorted, Modules, Paths;
    forall name ensures name in Modules(a) <==> name in Modules(b) {
      InModules(a, name);
      InModules(b, name);
    }
    SortedSetCanonical(Modules(a), Modules(b));
    forall name ensures EntryOf(a, name) == EntryOf(b, name) {
      SamePaths(a, b, name, "read");
      SamePaths(a, b, name, "walk");
      SamePaths(a, b, name, "spawn");
    }
  }

  lemma SamePaths(a: seq<Record>, b: seq<Record>, name: string, kind: string)
    requires forall r :: r in a <==> r in b
    ensures SortedSet(Paths(a, name, kind)) == SortedSet(Paths(b, name, kind))
  {
    hide Sorted, Paths;
    forall path ensures path in Paths(a, name, kind) <==> path in Paths(b, name, kind) {
      InPaths(a, name, kind, path);
      InPaths(b, name, kind, path);
    }
    SortedSetCanonical(Paths(a, name, kind), Paths(b, name, kind));
  }

  function ListOf(e: MapEntry, kind: string): seq<string> {
    if kind == "read" then e.read else if kind == "walk" then e.walked else e.spawned
  }

  /** The map states a path for a module and a kind. */
  predicate States(entries: seq<MapEntry>, name: string, kind: string, path: string) {
    exists i :: 0 <= i < |entries| && entries[i].name == name && path in ListOf(entries[i], kind)
  }

  function Names(entries: seq<MapEntry>): (r: seq<string>)
    ensures |r| == |entries| && forall i :: 0 <= i < |r| ==> r[i] == entries[i].name
  {
    seq(|entries|, i requires 0 <= i < |entries| => entries[i].name)
  }

  predicate StrictlySorted(xs: seq<string>) {
    SortedBy(xs, Leq) && Distinct(xs)
  }

  /**
   * A triple is in the map exactly when a valid record states it; modules and lists are sorted and free of duplicates.
   */
  lemma EntriesExact(recs: seq<Record>, name: string, kind: string, path: string)
    requires kind in ["read", "walk", "spawn"]
    ensures States(Entries(recs), name, kind, path) <==> Record(name, kind, path) in recs
    ensures StrictlySorted(Names(Entries(recs)))
    ensures forall i :: 0 <= i < |Entries(recs)| ==> StrictlySorted(ListOf(Entries(recs)[i], kind))
  {
    hide Sorted, Modules, Paths, Leq;
    var mods := SortedSet(Modules(recs));
    SortedSetMembers(Modules(recs));
    InPaths(recs, name, kind, path);
    InModules(recs, name);
    assert Names(Entries(recs)) == mods;
    forall i | 0 <= i < |mods| ensures StrictlySorted(ListOf(Entries(recs)[i], kind)) {
      SortedSetMembers(Paths(recs, mods[i], kind));
    }
    SortedSetMembers(Paths(recs, name, kind));
    if Record(name, kind, path) in recs {
      assert name in mods;
      var i :| 0 <= i < |mods| && mods[i] == name;
      assert Entries(recs)[i] == EntryOf(recs, name);
    }
  }

  /** Cutting a text in two at a line break changes no record. */
  lemma ResplitChangesNothing(before: seq<string>, a: string, b: string)
    ensures AllLines(before + [a, b]) == AllLines(before + [a + "\n" + b])
  {
    hide Lines;
    assert (before + [a, b])[..|before| + 1] == before + [a] && (before + [a])[..|before|] == before;
    assert (before + [a + "\n" + b])[..|before|] == before;
    LinesAppend(a, b);
  }

  lemma {:induction false} LinesAppend(a: string, b: string)
    ensures Lines(a + "\n" + b) == Lines(a) + Lines(b)
  {
    if a == "" {
      assert a + "\n" + b == ['\n'] + b;
      assert (['\n'] + b)[1..] == b;
    } else {
      assert (a + "\n" + b)[1..] == a[1..] + "\n" + b;
      LinesAppend(a[1..], b);
    }
  }

  // ---- untracked spawns ----

  /** Who spawned what, entry after entry, as long as it is a repository module without an entry. */
  function SpawnsFrom(spawns: seq<string>, seen: set<string>, name: string): seq<Record> {
    if spawns == [] then []
    else
      var p := spawns[|spawns| - 1];
      SpawnsFrom(spawns[..|spawns| - 1], seen, name)
        + if IsModuleFile(p) && p !in seen then [Record(p, "spawn", name)] else []
  }

  function AllSpawns(entries: seq<MapEntry>, seen: set<string>): seq<Record> {
    if entries == [] then []
    else
      AllSpawns(entries[..|entries| - 1], seen)
      + SpawnsFrom(entries[|entries| - 1].spawned, seen, entries[|entries| - 1].name)
  }

  function SpawnersIn(recs: seq<Record>): string -> seq<string> {
    (p: string) => Dedup(Paths(recs, p, "spawn"))
  }

  /** One spawn into the map of spawners. */
  method EnterSpawn(m: Dict<seq<string>>, p: string, name: string, ghost recs: seq<Record>)
    returns (m': Dict<seq<string>>)
    requires m == Grouped(Modules(recs), SpawnersIn(recs))
    ensures m' == Grouped(Modules(recs + [Record(p, "spawn", name)]), SpawnersIn(recs + [Record(p, "spawn", name)]))
  {
    hide Get, Put, Paths, Dedup;
    ghost var r := Record(p, "spawn", name);
    GroupedGet(Modules(recs), SpawnersIn(recs), p);
    if p !in Modules(recs) {
      NoPaths(recs, p, "spawn");
      assert Dedup<string>([]) == [] by { NothingDistinct(); }
    }
    var known := Get(m, p).GetOr([]);
    forall k ensures SpawnersIn(recs + [r])(k) ==
      if k == p then Add(SpawnersIn(recs)(k), name) else SpawnersIn(recs)(k) {
      PathsSnoc(recs, r, k, "spawn");
      DedupSnoc(Paths(recs, k, "spawn"), name);
      assert Paths(recs, k, "spawn") + [] == Paths(recs, k, "spawn");
    }
    assert (recs + [r])[..|recs|] == recs;
    GroupedPut(Modules(recs), p, SpawnersIn(recs), SpawnersIn(recs + [r]));
    m' := Put(m, p, Add(known, name));
  }

  lemma NothingDistinct()
    ensures Dedup<string>([]) == []
  {}

  method CollectSpawns(entries: seq<MapEntry>) returns (m: Dict<seq<string>>)
    ensures var recs := AllSpawns(entries, HasEntry(entries)); m == Grouped(Modules(recs), SpawnersIn(recs))
  {
    hide IsModuleFile, Grouped, SpawnersIn, Modules;
    var seen := HasEntry(entries);
    m := [];
    ghost var recs: seq<Record> := [];
    assert Grouped(Modules([]), SpawnersIn([])) == [] by { NothingSpawned(); }
    for k := 0 to |entries|
      invariant recs == AllSpawns(entries[..k], seen) && m == Grouped(Modules(recs), SpawnersIn(recs))
    {
      assert entries[..k + 1][..k] == entries[..k];
      ghost var before := recs;
      var e := entries[k];
      for i := 0 to |e.spawned|
        invariant recs == before + SpawnsFrom(e.spawned[..i], seen, e.name)
          && m == Grouped(Modules(recs), SpawnersIn(recs))
      {
        assert e.spawned[..i + 1][..i] == e.spawned[..i];
        var p := e.spawned[i];
        if IsModuleFile(p) && p !in seen {
          m := EnterSpawn(m, p, e.name, recs);
          recs := recs + [Record(p, "spawn", e.name)];
        }
      }
      assert e.spawned[..|e.spawned|] == e.spawned;
    }
    assert entries[..|entries|] == entries;
  }

  lemma NothingSpawned()
    ensures Grouped(Modules([]), SpawnersIn([])) == []
  {}

  function UntrackedOf(recs: seq<Record>): (r: seq<Untracked>)
    ensures |r| == |SortedSet(Modules(recs))|
    ensures forall i :: 0 <= i < |r| ==>
      r[i] == Untracked(SortedSet(Modules(recs))[i], SortedSet(Paths(recs, SortedSet(Modules(recs))[i], "spawn")))
  {
    var mods := SortedSet(Modules(recs));
    seq(|mods|, i requires 0 <= i < |mods| => Untracked(mods[i], SortedSet(Paths(recs, mods[i], "spawn"))))
  }

  /** `untrackedSpawns`. */
  method UntrackedSpawns(entries: seq<MapEntry>) returns (r: seq<Untracked>)
    ensures r == UntrackedOf(AllSpawns(entries, HasEntry(entries)))
  {
    hide Sort, AllSpawns, HasEntry, Paths;
    ghost var recs := AllSpawns(entries, HasEntry(entries));
    var m := CollectSpawns(entries);
    var mods := Sorted(KeysOf(m));
    KeysOfGrouped(Modules(recs), SpawnersIn(recs));
    SortedSetMembers(Modules(recs));
    r := [];
    for i := 0 to |mods|
      invariant r == UntrackedOf(recs)[..i]
    {
      GroupedGet(Modules(recs), SpawnersIn(recs), mods[i]);
      r := r + [Untracked(mods[i], Sorted(Get(m, mods[i]).GetOr([])))];
    }
  }

  lemma {:induction false} InSpawnsFrom(spawns: seq<string>, seen: set<string>, name: string, p: string, who: string)
    ensures Record(p, "spawn", who) in SpawnsFrom(spawns, seen, name) <==>
      who == name && p in spawns && IsModuleFile(p) && p !in seen
  {
    hide IsModuleFile;
    if spawns != [] {
      var init, last := spawns[..|spawns| - 1], spawns[|spawns| - 1];
      InSpawnsFrom(init, seen, name, p, who);
      assert spawns == init + [last];
    }
  }

  lemma {:induction false} InAllSpawns(entries: seq<MapEntry>, seen: set<string>, p: string, who: string)
    ensures Record(p, "spawn", who) in AllSpawns(entries, seen) <==>
      IsModuleFile(p) && p !in seen && exists e :: e in entries && e.name == who && p in e.spawned
  {
    hide IsModuleFile;
    if entries != [] {
      var init, last := entries[..|entries| - 1], entries[|entries| - 1];
      InAllSpawns(init, seen, p, who);
      InSpawnsFrom(last.spawned, seen, last.name, p, who);
      assert entries == init + [last];
    }
  }

  predicate Reports(list: seq<Untracked>, p: string, who: string) {
    exists i :: 0 <= i < |list| && list[i].name == p && who in list[i].spawnedBy
  }

  predicate NoEntry(entries: seq<MapEntry>, p: string) {
    forall e :: e in entries ==> e.name != p
  }

  predicate Spawned(entries: seq<MapEntry>, who: string, p: string) {
    exists e :: e in entries && e.name == who && p in e.spawned
  }

  /**
   * Reported are exactly the repository modules that some entry spawned and that have no entry, each with exactly its
   * spawners.
   */
  lemma UntrackedExact(entries: seq<MapEntry>, p: string, who: string)
    ensures Reports(UntrackedOf(AllSpawns(entries, HasEntry(entries))), p, who) <==>
      (HasModuleExtension(p) && p != "src/lib/sync-fs-trace.ts" && NoEntry(entries, p) && Spawned(entries, who, p))
  {
    IsModuleIff(p);
    hide IsModuleFile, HasModuleExtension, Modules, Paths, AllSpawns, Sorted;
    var seen := HasEntry(entries);
    var recs := AllSpawns(entries, seen);
    var mods, out := SortedSet(Modules(recs)), UntrackedOf(recs);
    InAllSpawns(entries, seen, p, who);
    InPaths(recs, p, "spawn", who);
    InModules(recs, p);
    SortedSetMembers(Modules(recs));
    SortedSetMembers(Paths(recs, p, "spawn"));
    assert p in seen <==> p == RECORDER_PRELOAD || exists e :: e in entries && e.name == p;
    if Record(p, "spawn", who) in recs {
      assert p in mods;
      var i :| 0 <= i < |mods| && mods[i] == p;
      assert out[i] == Untracked(p, SortedSet(Paths(recs, p, "spawn")));
    }
  }
}
