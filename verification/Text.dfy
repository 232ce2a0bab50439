/**
 * Strings as the scripts use them: lines, decimal numerals, path order, white space. A `char` stands for one UTF-16
 * code unit, which leaves surrogates, and with them text outside the basic plane, aside.
 */
module Text {
  import opened Sequences

  // ---- the order `<` puts strings in, code unit by code unit ----

  predicate Leq(a: string, b: string) {
    a == "" || (b != "" && (a[0] < b[0] || (a[0] == b[0] && Leq(a[1..], b[1..]))))
  }

  lemma LeqTotal(a: string, b: string)
    ensures Leq(a, b) || Leq(b, a)
  {}

  lemma LeqAntisymmetric(a: string, b: string)
    requires Leq(a, b) && Leq(b, a)
    ensures a == b
  {
    if a != "" {
      LeqAntisymmetric(a[1..], b[1..]);
      assert a == [a[0]] + a[1..] && b == [b[0]] + b[1..];
    }
  }

  lemma LeqTransitive(a: string, b: string, c: string)
    requires Leq(a, b) && Leq(b, c)
    ensures Leq(a, c)
  {}

  lemma LeqIsTotalOrder()
    ensures TotalOrder(Leq)
  {
    forall a, b ensures Leq(a, b) || Leq(b, a) { LeqTotal(a, b); }
    forall a, b | Leq(a, b) && Leq(b, a) ensures a == b { LeqAntisymmetric(a, b); }
    forall a, b, c | Leq(a, b) && Leq(b, c) ensures Leq(a, c) { LeqTransitive(a, b, c); }
  }

  /** `xs.sort()`. */
  function Sorted(xs: seq<string>): seq<string> {
    Sort(xs, Leq)
  }

  lemma SortedSorts(xs: seq<string>)
    ensures SortedBy(Sorted(xs), Leq)
    ensures multiset(Sorted(xs)) == multiset(xs)
    ensures |Sorted(xs)| == |xs|
    ensures forall x :: x in Sorted(xs) <==> x in xs
  {
    LeqIsTotalOrder();
    SortSorts(xs, Leq);
  }

  lemma SortedCanonical(xs: seq<string>, ys: seq<string>)
    requires multiset(xs) == multiset(ys)
    ensures Sorted(xs) == Sorted(ys)
  {
    LeqIsTotalOrder();
    SortCanonical(xs, ys, Leq);
  }

  /** `[...new Set(xs)].sort()`: the members decide it. */
  function SortedSet(xs: seq<string>): seq<string> {
    Sorted(Dedup(xs))
  }

  lemma SortedSetCanonical(xs: seq<string>, ys: seq<string>)
    requires forall x :: x in xs <==> x in ys
    ensures SortedSet(xs) == SortedSet(ys)
  {
    DistinctPermutation(Dedup(xs), Dedup(ys));
    SortedCanonical(Dedup(xs), Dedup(ys));
  }

  lemma SortedSetMembers(xs: seq<string>)
    ensures forall x :: x in SortedSet(xs) <==> x in xs
    ensures Distinct(SortedSet(xs)) && SortedBy(SortedSet(xs), Leq)
  {
    SortedSorts(Dedup(xs));
    PermutationDistinct(Dedup(xs), SortedSet(xs));
  }

  /** Where c first occurs; the length if it does not. */
  function IndexOf(s: string, c: char): (i: nat)
    ensures i <= |s| && (i < |s| ==> s[i] == c) && c !in s[..i]
  {
    if s == "" || s[0] == c then 0 else 1 + IndexOf(s[1..], c)
  }

  /** `xs.join("")`. */
  function Concat(parts: seq<string>): string {
    if parts == [] then "" else Concat(parts[..|parts| - 1]) + parts[|parts| - 1]
  }

  lemma ConcatSnoc(parts: seq<string>, part: string)
    ensures Concat(parts + [part]) == Concat(parts) + part
  {
    assert (parts + [part])[..|parts|] == parts;
  }

  // ---- lines ----

  /** `s.split("\n")`: always at least one line. */
  function Lines(s: string): (r: seq<string>)
    ensures r != []
  {
    if s == "" then [""]
    else if s[0] == '\n' then [""] + Lines(s[1..])
    else var r := Lines(s[1..]); [[s[0]] + r[0]] + r[1..]
  }

  /** `xs.join("\n")`. */
  function JoinLines(xs: seq<string>): string {
    if xs == [] then "" else if |xs| == 1 then xs[0] else xs[0] + "\n" + JoinLines(xs[1..])
  }

  lemma LinesOfHead(x: string, rest: string)
    requires '\n' !in x
    ensures Lines(x + "\n" + rest) == [x] + Lines(rest)
  {
    if x == "" {
      assert x + "\n" + rest == ['\n'] + rest;
    } else {
      assert (x + "\n" + rest)[1..] == x[1..] + "\n" + rest;
      LinesOfHead(x[1..], rest);
      assert [x[0]] + x[1..] == x;
    }
  }

  lemma LinesOfOne(x: string)
    requires '\n' !in x
    ensures Lines(x) == [x]
  {
    if x != "" {
      LinesOfOne(x[1..]);
      assert [x[0]] + x[1..] == x;
    }
  }

  lemma LinesOfJoin(xs: seq<string>)
    requires xs != [] && forall x :: x in xs ==> '\n' !in x
    ensures Lines(JoinLines(xs)) == xs
  {
    if |xs| == 1 {
      LinesOfOne(xs[0]);
    } else {
      LinesOfHead(xs[0], JoinLines(xs[1..]));
      LinesOfJoin(xs[1..]);
      assert xs == [xs[0]] + xs[1..];
    }
  }

  lemma LinesHaveNoNewline(s: string)
    ensures forall l :: l in Lines(s) ==> '\n' !in l
  {
    if s != "" {
      LinesHaveNoNewline(s[1..]);
      var r := Lines(s[1..]);
      assert r[0] in r;
      forall l | l in Lines(s) ensures '\n' !in l {
        if s[0] == '\n' {
          assert l == "" || l in r;
        } else {
          assert l == [s[0]] + r[0] || l in r[1..];
        }
      }
    }
  }

  lemma JoinNonEmpty(xs: seq<string>)
    requires xs != [] && xs[0] != ""
    ensures JoinLines(xs) != ""
  {}

  /** Joined lists of non-empty one-line names tell the lists apart. */
  lemma JoinInjective(xs: seq<string>, ys: seq<string>)
    requires forall x :: x in xs ==> x != "" && '\n' !in x
    requires forall y :: y in ys ==> y != "" && '\n' !in y
    requires JoinLines(xs) == JoinLines(ys)
    ensures xs == ys
  {
    if xs != [] { assert xs[0] in xs; JoinNonEmpty(xs); LinesOfJoin(xs); }
    if ys != [] { assert ys[0] in ys; JoinNonEmpty(ys); LinesOfJoin(ys); }
  }

  // ---- decimal numerals ----

  function Digit(d: nat): char
    requires d < 10
  {
    "0123456789"[d]
  }

  function Decimal(n: nat): string {
    if n < 10 then [Digit(n)] else Decimal(n / 10) + [Digit(n % 10)]
  }

  lemma DecimalDigits(n: nat)
    ensures Decimal(n) != "" && forall c :: c in Decimal(n) ==> '0' <= c <= '9'
  {}

  lemma DecimalInjective(m: nat, n: nat)
    requires Decimal(m) == Decimal(n)
    ensures m == n
  {
    DecimalDigits(m / 10);
    DecimalDigits(n / 10);
    var s, t := Decimal(m), Decimal(n);
    assert s[|s| - 1] == Digit(m % 10) && t[|t| - 1] == Digit(n % 10);
    if m >= 10 && n >= 10 {
      assert s[..|s| - 1] == Decimal(m / 10) && t[..|t| - 1] == Decimal(n / 10);
      DecimalInjective(m / 10, n / 10);
    }
  }

  /** `toLowerCase` on the hexadecimal names of commits. */
  function Lower(s: string): (r: string)
    ensures |r| == |s|
  {
    seq(|s|, i requires 0 <= i < |s| => if 'A' <= s[i] <= 'Z' then ((s[i] as int) + 32) as char else s[i])
  }

  predicate IsHex(s: string) {
    forall c :: c in s ==> '0' <= c <= '9' || 'a' <= c <= 'f'
  }

  /** A full commit name. */
  predicate IsSha(s: string) {
    |s| == 40 && IsHex(s)
  }

  const SHA256 := "sha256:"

  /** A fingerprint as it is written down. */
  predicate IsDigest(s: string) {
    |s| == |SHA256| + 64 && SHA256 <= s && IsHex(s[|SHA256|..])
  }

  const HEX := "0123456789abcdef"

  lemma HexDigits(c: char)
    ensures c in HEX <==> '0' <= c <= '9' || 'a' <= c <= 'f'
  {
    assert HEX == ['0', '1', '2', '3', '4', '5', '6', '7', '8', '9', 'a', 'b', 'c', 'd', 'e', 'f'];
  }

  /** A full commit name has forty of the sixteen digits, a fingerprint sixty-four behind its prefix. */
  lemma NamesAreHex(s: string)
    ensures IsSha(s) <==> |s| == 40 && forall c :: c in s ==> c in HEX
    ensures IsDigest(s) <==> |s| == 71 && s[..7] == "sha256:" && forall c :: c in s[7..] ==> c in HEX
  {
    forall c: char ensures c in HEX <==> '0' <= c <= '9' || 'a' <= c <= 'f' { HexDigits(c); }
    hide HEX;
  }

  /** Capitals become the small letters at the same place of the alphabet, and nothing else changes. */
  lemma LowerSays(s: string, i: nat)
    requires i < |s|
    ensures 'A' <= s[i] <= 'Z' ==>
      'a' <= Lower(s)[i] <= 'z' && Lower(s)[i] as int - 'a' as int == s[i] as int - 'A' as int
    ensures !('A' <= s[i] <= 'Z') ==> Lower(s)[i] == s[i]
  {}

  // ---- white space: the code units `trim` and `\s` strip ----

  predicate IsSpace(c: char) {
    || '\U{0009}' <= c <= '\U{000D}' || c == ' ' || c == '\U{00A0}' || c == '\U{1680}' || '\U{2000}' <= c <= '\U{200A}'
    || c == '\U{2028}' || c == '\U{2029}' || c == '\U{202F}' || c == '\U{205F}' || c == '\U{3000}' || c == '\U{FEFF}'
  }

  /** The white space of the language, one by one. */
  lemma SpaceSays(c: char)
    ensures IsSpace(c) <==> c in {
      '\U{0009}', '\U{000A}', '\U{000B}', '\U{000C}', '\U{000D}', ' ', '\U{00A0}', '\U{1680}', '\U{2000}', '\U{2001}',
      '\U{2002}', '\U{2003}', '\U{2004}', '\U{2005}', '\U{2006}', '\U{2007}', '\U{2008}', '\U{2009}', '\U{200A}',
      '\U{2028}', '\U{2029}', '\U{202F}', '\U{205F}', '\U{3000}', '\U{FEFF}'}
  {}

  predicate Blank(s: string) {
    forall c :: c in s ==> IsSpace(c)
  }

  function TrimStart(s: string): string {
    if s != "" && IsSpace(s[0]) then TrimStart(s[1..]) else s
  }

  function TrimEnd(s: string): string {
    if s != "" && IsSpace(s[|s| - 1]) then TrimEnd(s[..|s| - 1]) else s
  }

  function Trim(s: string): string {
    TrimEnd(TrimStart(s))
  }

  lemma TrimStartBlank(s: string)
    ensures Blank(TrimStart(s)) <==> Blank(s)
  {
    if s != "" && IsSpace(s[0]) {
      TrimStartBlank(s[1..]);
      assert s == [s[0]] + s[1..];
    }
  }

  lemma TrimEndBlank(s: string)
    ensures TrimEnd(s) == "" <==> Blank(s)
  {
    if s != "" && IsSpace(s[|s| - 1]) {
      TrimEndBlank(s[..|s| - 1]);
      assert s == s[..|s| - 1] + [s[|s| - 1]];
    }
  }

  /** Nothing is left of white space, and of nothing else. */
  lemma TrimBlank(s: string)
    ensures Trim(s) == "" <==> Blank(s)
  {
    TrimStartBlank(s);
    TrimEndBlank(TrimStart(s));
  }
}
