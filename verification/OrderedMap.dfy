/** A map that remembers the order in which its keys were first set, as the `Map` of JavaScript does. */
module OrderedMap {
  import opened Sequences

  datatype Entry<V> = Entry(key: string, value: V)

  type Dict<V> = seq<Entry<V>>

  predicate Unique<V(!new)>(m: Dict<V>) {
    forall i, j :: 0 <= i < j < |m| ==> m[i].key != m[j].key
  }

  function Get<V(!new)>(m: Dict<V>, key: string): Option<V> {
    if m == [] then None else if m[0].key == key then Some(m[0].value) else Get(m[1..], key)
  }

  /** `map.set`: a known key keeps its place. */
  function Put<V(!new)>(m: Dict<V>, key: string, value: V): Dict<V> {
    if m == [] then [Entry(key, value)]
    else if m[0].key == key then [Entry(key, value)] + m[1..]
    else [m[0]] + Put(m[1..], key, value)
  }

  /** All entries but the marked ones, in order. */
  function Drop<V(!new)>(m: Dict<V>, marked: Entry<V> -> bool): Dict<V> {
    if m == [] then [] else if marked(m[|m| - 1]) then Drop(m[..|m| - 1], marked)
      else Drop(m[..|m| - 1], marked) + [m[|m| - 1]]
  }

  function HasKey<V>(key: string): Entry<V> -> bool {
    (e: Entry<V>) => e.key == key
  }

  /** `map.delete`. */
  function Without<V(!new)>(m: Dict<V>, key: string): Dict<V> {
    Drop(m, HasKey(key))
  }

  /** The keys of the marked entries, in order. */
  function Keys<V(!new)>(m: Dict<V>, marked: Entry<V> -> bool): seq<string> {
    if m == [] then [] else Keys(m[..|m| - 1], marked) + if marked(m[|m| - 1]) then [m[|m| - 1].key] else []
  }

  lemma GetAt<V(!new)>(m: Dict<V>, key: string)
    ensures Get(m, key).None? <==> forall i :: 0 <= i < |m| ==> m[i].key != key
    ensures Get(m, key).Some? ==> exists i :: 0 <= i < |m| && m[i] == Entry(key, Get(m, key).value)
  {
    if m != [] && m[0].key != key {
      GetAt(m[1..], key);
      if Get(m, key).Some? {
        var i :| 0 <= i < |m[1..]| && m[1..][i] == Entry(key, Get(m, key).value);
        assert m[i + 1] == Entry(key, Get(m, key).value);
      } else {
        forall i | 0 <= i < |m| ensures m[i].key != key { if i > 0 { assert m[1..][i - 1].key != key; } }
      }
    } else if m != [] {
      assert m[0] == Entry(key, m[0].value);
    }
  }

  lemma GetIs<V(!new)>(m: Dict<V>, i: nat)
    requires Unique(m) && i < |m|
    ensures Get(m, m[i].key) == Some(m[i].value)
  {
    GetAt(m, m[i].key);
  }

  lemma GetPut<V(!new)>(m: Dict<V>, key: string, value: V, other: string)
    ensures Get(Put(m, key, value), other) == if other == key then Some(value) else Get(m, other)
  {}

  lemma PutKeys<V(!new)>(m: Dict<V>, key: string, value: V)
    ensures |m| <= |Put(m, key, value)| <= |m| + 1
    ensures forall i :: 0 <= i < |m| ==> Put(m, key, value)[i].key == m[i].key
    ensures |Put(m, key, value)| > |m| ==> Get(m, key).None? && Put(m, key, value)[|m|].key == key
  {
    if m != [] && m[0].key != key {
      PutKeys(m[1..], key, value);
      forall i | 0 <= i < |m| ensures Put(m, key, value)[i].key == m[i].key {
        if i > 0 { assert m[1..][i - 1] == m[i]; }
      }
    }
  }

  /** A known key keeps its place. */
  lemma {:induction false} PutAt<V(!new)>(m: Dict<V>, i: nat, key: string, value: V)
    requires i < |m| && m[i].key == key && forall j :: 0 <= j < i ==> m[j].key != key
    ensures Put(m, key, value) == m[..i] + [Entry(key, value)] + m[i + 1..]
    ensures Put(m, key, value) == m[i := Entry(key, value)]
  {
    if i > 0 {
      forall j | 0 <= j < i - 1 ensures m[1..][j].key != key { assert m[1..][j] == m[j + 1]; }
      PutAt(m[1..], i - 1, key, value);
      assert m[1..][..i - 1] == m[1..i] && m[1..][i..] == m[i + 1..];
      assert m[..i] == [m[0]] + m[1..i];
    }
  }

  /** A new one goes to the end. */
  lemma {:induction false} PutNew<V(!new)>(m: Dict<V>, key: string, value: V)
    requires forall i :: 0 <= i < |m| ==> m[i].key != key
    ensures Put(m, key, value) == m + [Entry(key, value)]
  {
    if m != [] {
      forall i | 0 <= i < |m[1..]| ensures m[1..][i].key != key { assert m[i + 1].key != key; }
      PutNew(m[1..], key, value);
    }
  }

  lemma UniquePut<V(!new)>(m: Dict<V>, key: string, value: V)
    requires Unique(m)
    ensures Unique(Put(m, key, value))
  {
    PutKeys(m, key, value);
    GetAt(m, key);
  }

  lemma DropMembers<V(!new)>(m: Dict<V>, marked: Entry<V> -> bool)
    ensures forall e :: e in Drop(m, marked) <==> e in m && !marked(e)
  {
    if m != [] {
      DropMembers(m[..|m| - 1], marked);
      assert m == m[..|m| - 1] + [m[|m| - 1]];
    }
  }

  lemma UniqueDrop<V(!new)>(m: Dict<V>, marked: Entry<V> -> bool)
    requires Unique(m)
    ensures Unique(Drop(m, marked))
  {
    if m != [] {
      var init, last := m[..|m| - 1], m[|m| - 1];
      UniqueDrop(init, marked);
      DropMembers(init, marked);
      forall k | 0 <= k < |Drop(init, marked)| ensures Drop(init, marked)[k].key != last.key {
        assert Drop(init, marked)[k] in init;
        var j :| 0 <= j < |init| && init[j] == Drop(init, marked)[k];
        assert m[j].key != m[|m| - 1].key;
      }
    }
  }

  /** With unique keys, an entry is found after a drop exactly when it was found before and is not marked. */
  lemma GetDrop<V(!new)>(m: Dict<V>, marked: Entry<V> -> bool, key: string)
    requires Unique(m)
    ensures Get(Drop(m, marked), key) ==
      if Get(m, key).Some? && !marked(Entry(key, Get(m, key).value)) then Get(m, key) else None
  {
    hide Drop, Get;
    UniqueDrop(m, marked);
    DropMembers(m, marked);
    GetAt(m, key);
    var left := Drop(m, marked);
    if Get(m, key).Some? && !marked(Entry(key, Get(m, key).value)) {
      var e := Entry(key, Get(m, key).value);
      assert e in m;
      var i :| 0 <= i < |left| && left[i] == e;
      GetIs(left, i);
    } else {
      forall i | 0 <= i < |left| ensures left[i].key != key {
        assert left[i] in m;
        var j :| 0 <= j < |m| && m[j] == left[i];
        GetIs(m, j);
      }
      GetAt(left, key);
    }
  }

  lemma {:induction false} DropNothing<V(!new)>(m: Dict<V>, marked: Entry<V> -> bool)
    requires forall i :: 0 <= i < |m| ==> !marked(m[i])
    ensures Drop(m, marked) == m
  {
    if m != [] {
      var init := m[..|m| - 1];
      forall i | 0 <= i < |init| ensures !marked(init[i]) { assert init[i] == m[i]; }
      DropNothing(init, marked);
      assert m == init + [m[|m| - 1]];
    }
  }

  lemma DropAppend<V(!new)>(m: Dict<V>, n: Dict<V>, marked: Entry<V> -> bool)
    ensures Drop(m + n, marked) == Drop(m, marked) + Drop(n, marked)
  {
    if n == [] {
      assert m + n == m;
    } else {
      assert (m + n)[..|m + n| - 1] == m + n[..|n| - 1];
      DropAppend(m, n[..|n| - 1], marked);
    }
  }

  /**
   * Deleting the entry that a loop has just reached takes it out of the part still to come and touches nothing else.
   */
  lemma WithoutReached<V(!new)>(m: Dict<V>, i: nat, marked: Entry<V> -> bool)
    requires Unique(m) && i < |m| && marked(m[i])
    ensures Without(Drop(m[..i], marked) + m[i..], m[i].key) == Drop(m[..i + 1], marked) + m[i + 1..]
  {
    var done, rest, gone := Drop(m[..i], marked), m[i + 1..], HasKey<V>(m[i].key);
    assert m[i..] == [m[i]] + rest && m[..i + 1][..i] == m[..i];
    assert done + m[i..] == done + [m[i]] + rest;
    DropAppend(done + [m[i]], rest, gone);
    DropAppend(done, [m[i]], gone);
    DropMembers(m[..i], marked);
    forall k | 0 <= k < |done| ensures !gone(done[k]) { assert done[k] in m[..i]; }
    DropNothing(done, gone);
    DropNothing(rest, gone);
    assert Drop([m[i]], gone) == [];
  }

  lemma NotReached<V(!new)>(m: Dict<V>, i: nat, marked: Entry<V> -> bool)
    requires i < |m| && !marked(m[i])
    ensures Drop(m[..i], marked) + m[i..] == Drop(m[..i + 1], marked) + m[i + 1..]
  {
    assert m[..i + 1][..i] == m[..i] && m[i..] == [m[i]] + m[i + 1..];
  }

  lemma DropWhole<V(!new)>(m: Dict<V>, marked: Entry<V> -> bool)
    ensures Drop(m[..0], marked) + m[0..] == m && Drop(m[..|m|], marked) + m[|m|..] == Drop(m, marked)
  {
    DropNothing(m[..0], marked);
    assert m[..|m|] == m && m[0..] == m && m[..0] == [];
  }

  /** Deleting while iterating. */
  method DeleteMarked<V(!new)>(m: Dict<V>, marked: Entry<V> -> bool) returns (r: Dict<V>)
    requires Unique(m)
    ensures r == Drop(m, marked)
  {
    hide Drop, Unique;
    r := m;
    DropWhole(m, marked);
    for i := 0 to |m|
      invariant r == Drop(m[..i], marked) + m[i..]
    {
      if marked(m[i]) {
        WithoutReached(m, i, marked);
        r := Without(r, m[i].key);
      } else {
        NotReached(m, i, marked);
      }
    }
  }

  lemma DropTwice<V(!new)>(m: Dict<V>, first: Entry<V> -> bool, second: Entry<V> -> bool, both: Entry<V> -> bool)
    requires forall e :: both(e) <==> first(e) || second(e)
    ensures Drop(Drop(m, first), second) == Drop(m, both)
  {
    if m != [] { DropTwice(m[..|m| - 1], first, second, both); }
  }

  /** `pendingKeysOwedBy` and the like: collect the keys first, then delete them one by one. */
  method CollectKeys<V(!new)>(m: Dict<V>, marked: Entry<V> -> bool) returns (keys: seq<string>)
    ensures keys == Keys(m, marked)
  {
    keys := [];
    for i := 0 to |m|
      invariant keys == Keys(m[..i], marked)
    {
      assert m[..i + 1][..i] == m[..i];
      if marked(m[i]) { keys := keys + [m[i].key]; }
    }
    assert m[..|m|] == m;
  }

  function KeyIn<V>(keys: seq<string>): Entry<V> -> bool {
    (e: Entry<V>) => e.key in keys
  }

  method DeleteKeys<V(!new)>(m: Dict<V>, keys: seq<string>) returns (r: Dict<V>)
    ensures r == Drop(m, KeyIn(keys))
  {
    r := m;
    DropNothing(m, KeyIn(keys[..0]));
    for i := 0 to |keys|
      invariant r == Drop(m, KeyIn(keys[..i]))
    {
      DropTwice(m, KeyIn(keys[..i]), HasKey(keys[i]), KeyIn(keys[..i + 1]));
      r := Without(r, keys[i]);
    }
    assert keys[..|keys|] == keys;
  }

  lemma {:induction false} KeysMembers<V(!new)>(m: Dict<V>, marked: Entry<V> -> bool, key: string)
    ensures key in Keys(m, marked) <==> exists i :: 0 <= i < |m| && marked(m[i]) && m[i].key == key
  {
    if m != [] {
      var last := |m| - 1;
      KeysMembers(m[..last], marked, key);
      if key in Keys(m[..last], marked) {
        var i :| 0 <= i < last && marked(m[..last][i]) && m[..last][i].key == key;
        assert m[..last][i] == m[i];
      }
      if i :| 0 <= i < |m| && marked(m[i]) && m[i].key == key && i < last { assert m[..last][i] == m[i]; }
    }
  }

  lemma {:induction false} KeysAppend<V(!new)>(m: Dict<V>, n: Dict<V>, marked: Entry<V> -> bool)
    ensures Keys(m + n, marked) == Keys(m, marked) + Keys(n, marked)
  {
    if n == [] {
      assert m + n == m;
    } else {
      assert (m + n)[..|m + n| - 1] == m + n[..|n| - 1];
      KeysAppend(m, n[..|n| - 1], marked);
    }
  }

  lemma DropSame<V(!new)>(m: Dict<V>, first: Entry<V> -> bool, second: Entry<V> -> bool)
    requires forall i :: 0 <= i < |m| ==> first(m[i]) == second(m[i])
    ensures Drop(m, first) == Drop(m, second)
  {
    if m != [] { DropSame(m[..|m| - 1], first, second); }
  }

  /** With unique keys, deleting the collected keys deletes the marked entries. */
  lemma DropCollected<V(!new)>(m: Dict<V>, marked: Entry<V> -> bool)
    requires Unique(m)
    ensures Drop(m, KeyIn(Keys(m, marked))) == Drop(m, marked)
  {
    forall i | 0 <= i < |m| ensures KeyIn(Keys(m, marked))(m[i]) == marked(m[i]) { KeysMembers(m, marked, m[i].key); }
    DropSame(m, KeyIn(Keys(m, marked)), marked);
  }
}
